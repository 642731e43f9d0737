/** The cluster as one state machine: nodes with their caches and prefetch pipelines, requests between
    them, the files opened for requests, and the calls of GetOrCreate under way. Every step is total: a
    step that is not possible changes nothing. Reads and sends interleave freely with evictions, lost
    answers and failures. (store.go, file.go, reader.go and the files handler, joined.) */
module Cluster {
  import opened Common
  import opened Reachability
  import opened Items
  import opened Keys
  import opened Reader
  import Context
  import FileViews
  import Int64
  import Segments
  import Stores

  /** The content each name stands for, the block size, and the number of prefetch workers of a node. */
  datatype Config = Config(blobs: map<string, seq<byte>>, block: int, workers: nat)

  ghost predicate Sensible(cfg: Config) {
    && cfg.block > 0 && Int64.Is(cfg.block)
    && forall n :: n in cfg.blobs ==> SEP !in n && |cfg.blobs[n]| <= Int64.TWO63 - cfg.block
  }

  predicate OnGrid(cfg: Config, id: ChunkId) {
    cfg.block > 0 && id.name in cfg.blobs && 0 <= id.off < |cfg.blobs[id.name]| && id.off % cfg.block == 0
  }

  function Want(cfg: Config, id: ChunkId): seq<byte>
    requires OnGrid(cfg, id)
  {
    Chunk(cfg.blobs[id.name], id.off, cfg.block)
  }

  // ---------------------------------------------------------------- state

  /** A chunk to prefetch with the reader of the file that was opened for `session`. */
  datatype Job = Job(session: nat, id: ChunkId, count: int)

  /** A job in a worker's hands, with its call of GetOrCreate. */
  datatype Hand = Hand(job: Job, call: nat)

  datatype Node = Node(
    chunks: map<ChunkId, seq<byte>>, sizes: map<string, int>,
    made: multiset<Job>, sending: multiset<Job>, queue: seq<Job>,
    hands: seq<Hand>, failed: seq<Hand>, advertised: seq<Hand>)

  /** A GET that has reached a node, from a client or for a call of GetOrCreate on another node. */
  datatype Request = Request(node: nat, name: string, headers: Context.Headers, parent: Option<nat>)

  /** What a node makes of a request: a refusal, or a file being sent from the start of the range on. */
  datatype Serving =
    | Refused
    | Opened(file: string, chunkOffset: int, start: int, size: Option<int>, prefetched: bool, sent: seq<byte>)

  /** A call of GetOrCreate: for the read at `at`, or for a prefetch worker. */
  datatype Call = Call(session: nat, id: ChunkId, count: int, asks: bool, at: Option<int>)

  /** How far it is: what the peer loop has received, the request it waits for, and what it returned. */
  datatype Progress = Progress(events: seq<Event>, waiting: Option<nat>, result: Option<Result<seq<byte>>>)

  datatype State = State(
    nodes: seq<Node>, requests: seq<Request>, serving: map<nat, Serving>, calls: seq<Call>, progress: seq<Progress>)

  const EMPTY_NODE := Node(map[], map[], multiset{}, multiset{}, [], [], [], [])

  function Init(nodes: nat): State {
    State(seq(nodes, _ => EMPTY_NODE), [], map[], [], [])
  }

  datatype Action =
    | Client(node: nat, name: string, headers: Context.Headers)
    | Admit(q: nat)
    | Stat(q: nat, response: StatResponse)
    | Forget(node: nat, name: string)
    | Evict(node: nat, id: ChunkId)
    | Land(node: nat, id: ChunkId, content: seq<byte>)
    | Prefetch(q: nat, segs: seq<Segments.Segment>)
    | Send(node: nat, job: Job)
    | Take(node: nat, asks: bool)
    | Report(node: nat, worker: nat)
    | Read(q: nat, asks: bool)
    | Deliver(c: nat, n: nat)
    | Ask(c: nat, peer: nat, correlation: string, sender: string)
    | Answered(c: nat, lost: bool)
    | Skip(c: nat, event: Event)
    | Hit(c: nat)
    | Fill(c: nat, origin: Http, kept: bool)
    | Break(c: nat)

  // ---------------------------------------------------------------- helpers

  predicate IsOpen(st: State, q: nat) {
    q < |st.requests| && st.requests[q].node < |st.nodes| && q in st.serving && st.serving[q].Opened?
  }

  /** A call that has not returned. */
  predicate Active(st: State, c: nat) {
    && c < |st.calls| && c < |st.progress| && st.progress[c].result.None?
    && st.calls[c].session < |st.requests| && st.requests[st.calls[c].session].node < |st.nodes|
  }

  function NodeOf(st: State, c: nat): nat
    requires Active(st, c)
  {
    st.requests[st.calls[c].session].node
  }

  function Range(r: Request): string { Context.Get(r.headers, Context.RANGE_HEADER) }

  predicate Marked(r: Request) { Context.IsRequestFromAPeer(r.headers) }

  /** A reader made from a marked request asks nobody; another may or may not find a lookup open to it. */
  predicate MayAsk(st: State, session: nat, asks: bool) {
    session < |st.requests| && (asks ==> !Marked(st.requests[session]))
  }

  function WithNode(st: State, n: nat, node: Node): State
    requires n < |st.nodes|
  {
    st.(nodes := st.nodes[n := node])
  }

  function WithProgress(st: State, c: nat, p: Progress): State
    requires c < |st.progress|
  {
    st.(progress := st.progress[c := p])
  }

  function WithCall(st: State, call: Call): State {
    st.(calls := st.calls + [call], progress := st.progress + [Progress([], None, None)])
  }

  /** Where the answer to a range stops: after its last byte, or at the end of the file. */
  function RangeEnd(range: string, size: int): int {
    match RangeBounds(range)
    case Ok(b) => Min(b.1 + 1, size)
    case Err => size
  }

  predicate HasBytes(content: seq<byte>) { content != [] }

  // ---------------------------------------------------------------- requests

  /** A client may send any headers, even the mark of a peer. */
  function DoClient(cfg: Config, st: State, node: nat, name: string, headers: Context.Headers): State {
    if node < |st.nodes| && name in cfg.blobs then st.(requests := st.requests + [Request(node, name, headers, None)])
    else st
  }

  /** The handler derives the key from the request alone, and Open takes it apart again. A marked
      request is refused unless the chunk named by the key has something in it here. */
  function Admission(cfg: Config, r: Request, node: Node): Serving
    requires cfg.block > 0
  {
    match Stores.Key(true, r.name, false, Range(r), cfg.block)
    case Err => Refused
    case Ok(key) =>
      match OpenKey(key)
      case None => Refused
      case Some(o) =>
        var id := ChunkId(o.0, o.1);
        if Marked(r) && !(id in node.chunks && HasBytes(node.chunks[id])) then Refused
        else Opened(o.0, if Marked(r) then o.1 else 0, RangeStartIndex(Range(r)).value, None, false, [])
  }

  function DoAdmit(cfg: Config, st: State, q: nat): State
    requires cfg.block > 0
  {
    if q < |st.requests| && q !in st.serving && st.requests[q].node < |st.nodes| then
      st.(serving := st.serving[q := Admission(cfg, st.requests[q], st.nodes[st.requests[q].node])])
    else st
  }

  /** The size comes from the node's metadata or, on a miss, from the origin's response. */
  function DoStat(cfg: Config, st: State, q: nat, response: StatResponse): State {
    if !IsOpen(st, q) then st
    else
      var n, s := st.requests[q].node, st.serving[q];
      if s.file in st.nodes[n].sizes then
        st.(serving := st.serving[q := s.(size := Some(st.nodes[n].sizes[s.file]))])
      else if s.file in cfg.blobs && FileViews.Declares(response, |cfg.blobs[s.file]|) && FstatSize(response).Ok? then
        var size := FstatSize(response).value;
        WithNode(st.(serving := st.serving[q := s.(size := Some(size))]), n,
                 st.nodes[n].(sizes := st.nodes[n].sizes[s.file := size]))
      else st
  }

  // ---------------------------------------------------------------- the caches' own life

  function DoForget(st: State, n: nat, name: string): State {
    if n < |st.nodes| then WithNode(st, n, st.nodes[n].(sizes := st.nodes[n].sizes - {name})) else st
  }

  function DoEvict(st: State, n: nat, id: ChunkId): State {
    if n < |st.nodes| then WithNode(st, n, st.nodes[n].(chunks := st.nodes[n].chunks - {id})) else st
  }

  /** A file is found on disk, or left behind by a fill that failed: not whole, or the chunk. */
  function DoLand(cfg: Config, st: State, n: nat, id: ChunkId, content: seq<byte>): State {
    if n < |st.nodes| && OnGrid(cfg, id) && (|content| == |Want(cfg, id)| ==> content == Want(cfg, id)) then
      WithNode(st, n, st.nodes[n].(chunks := st.nodes[n].chunks[id := content]))
    else st
  }

  // ---------------------------------------------------------------- prefetching

  function JobsOf(q: nat, name: string, segs: seq<Segments.Segment>): seq<Job> {
    seq(|segs|, i requires 0 <= i < |segs| => Job(q, ChunkId(name, segs[i].index), segs[i].count))
  }

  /** Opening a file of a known size starts sending its segments to the workers, once, if there are any. */
  ghost function DoPrefetch(cfg: Config, st: State, q: nat, segs: seq<Segments.Segment>): State
    requires cfg.block > 0
  {
    if cfg.workers > 0 && IsOpen(st, q) && st.serving[q].size.Some? && !st.serving[q].prefetched
       && Int64.IsPow2(cfg.block) && Segments.IsPartition(segs, 0, st.serving[q].size.value, cfg.block) then
      var n, s := st.requests[q].node, st.serving[q];
      var jobs := multiset(JobsOf(q, s.file, segs));
      WithNode(st.(serving := st.serving[q := s.(prefetched := true)]), n,
               st.nodes[n].(made := st.nodes[n].made + jobs, sending := st.nodes[n].sending + jobs))
    else st
  }

  function DoSend(cfg: Config, st: State, n: nat, job: Job): State {
    if n < |st.nodes| && job in st.nodes[n].sending && |st.nodes[n].queue| < cfg.workers then
      WithNode(st, n, st.nodes[n].(sending := st.nodes[n].sending - multiset{job}, queue := st.nodes[n].queue + [job]))
    else st
  }

  function DoTake(cfg: Config, st: State, n: nat, asks: bool): State {
    if n < |st.nodes| && st.nodes[n].queue != [] && |st.nodes[n].hands| < cfg.workers
       && MayAsk(st, st.nodes[n].queue[0].session, asks) then
      var job := st.nodes[n].queue[0];
      WithCall(WithNode(st, n, st.nodes[n].(queue := st.nodes[n].queue[1..],
                                            hands := st.nodes[n].hands + [Hand(job, |st.calls|)])),
               Call(job.session, job.id, job.count, asks, None))
    else st
  }

  /** The worker's call returned: the chunk is advertised, or the job has failed. */
  function DoReport(st: State, n: nat, w: nat): State {
    if n < |st.nodes| && w < |st.nodes[n].hands| && st.nodes[n].hands[w].call < |st.progress|
       && st.progress[st.nodes[n].hands[w].call].result.Some? then
      var node, hand := st.nodes[n], st.nodes[n].hands[w];
      var rest := node.(hands := node.hands[..w] + node.hands[w + 1..]);
      WithNode(st, n, if st.progress[hand.call].result.value.Ok? then rest.(advertised := node.advertised + [hand])
                      else rest.(failed := node.failed + [hand]))
    else st
  }

  // ---------------------------------------------------------------- reading

  /** ReadAt asks the cache for the chunk around the next byte to send; a file opened for one chunk
      refuses the others. */
  function DoRead(cfg: Config, st: State, q: nat, asks: bool): State
    requires cfg.block > 0
  {
    if IsOpen(st, q) && st.serving[q].size.Some? && MayAsk(st, q, asks) then
      var s := st.serving[q];
      var offset, size := s.start + |s.sent|, s.size.value;
      var aligned := Segments.AlignDown(offset, cfg.block);
      if 0 <= offset < RangeEnd(Range(st.requests[q]), size) && (s.chunkOffset == 0 || s.chunkOffset == aligned) then
        WithCall(st, Call(q, ChunkId(s.file, aligned), Min(cfg.block, size - aligned), asks, Some(offset)))
      else st
    else st
  }

  /** The read's bytes are sent on: at most to the end of the chunk and of the range. */
  predicate CanDeliver(st: State, c: nat, n: nat) {
    && c < |st.calls| && c < |st.progress| && st.progress[c].result.Some? && st.progress[c].result.value.Ok?
    && st.calls[c].at.Some? && IsOpen(st, st.calls[c].session) && st.serving[st.calls[c].session].size.Some?
    && var call, s := st.calls[c], st.serving[st.calls[c].session];
       && call.at.value == s.start + |s.sent| && call.id.off <= call.at.value && n > 0
       && call.at.value - call.id.off + n <= |st.progress[c].result.value.value|
       && call.at.value + n <= RangeEnd(Range(st.requests[call.session]), s.size.value)
  }

  function DoDeliver(st: State, c: nat, n: nat): State {
    if CanDeliver(st, c, n) then
      var call, s := st.calls[c], st.serving[st.calls[c].session];
      var pos := call.at.value - call.id.off;
      st.(serving := st.serving[call.session := s.(sent := s.sent + st.progress[c].result.value.value[pos..pos + n])])
    else st
  }

  // ---------------------------------------------------------------- the peer loop, over the network

  /** No event so far has ended the loop. */
  predicate Searching(events: seq<Event>, count: int) {
    count >= 0 && forall n :: 0 <= n < |events| ==>
        events[n].BadRequest? || (events[n].Answer? && !Fills(events[n].http, count))
  }

  predicate CanAsk(st: State, c: nat) {
    && Active(st, c) && st.calls[c].asks && st.progress[c].waiting.None?
    && Searching(st.progress[c].events, st.calls[c].count)
  }

  /** The next peer, never this node itself, is sent the session's own headers with the range of the
      chunk and the mark. */
  function DoAsk(st: State, c: nat, peer: nat, correlation: string, sender: string): State {
    if CanAsk(st, c) && peer < |st.nodes| && peer != NodeOf(st, c) then
      var call := st.calls[c];
      var session := st.requests[call.session];
      var headers := Context.Outbound(session.headers, correlation, sender, call.id.off, call.id.off + call.count - 1);
      WithProgress(st.(requests := st.requests + [Request(peer, session.name, headers, Some(c))]), c,
                   st.progress[c].(waiting := Some(|st.requests|)))
    else st
  }

  /** The answer as far as it got, a refusal, or nothing. */
  function AnswerOf(st: State, q: nat, lost: bool): Http {
    if lost || q !in st.serving then NoResponse
    else if st.serving[q].Refused? then Response(404, [])
    else Response(206, st.serving[q].sent)
  }

  function DoAnswered(st: State, c: nat, lost: bool): State {
    if Active(st, c) && st.progress[c].waiting.Some? then
      var p := st.progress[c];
      WithProgress(st, c, p.(waiting := None, events := p.events + [Answer(AnswerOf(st, p.waiting.value, lost))]))
    else st
  }

  /** A peer whose request cannot be built, a timeout, or the end of the peers. */
  function DoSkip(st: State, c: nat, event: Event): State {
    if CanAsk(st, c) && !event.Answer? then
      WithProgress(st, c, st.progress[c].(events := st.progress[c].events + [event]))
    else st
  }

  // ---------------------------------------------------------------- what GetOrCreate returns

  function DoHit(st: State, c: nat): State {
    if Active(st, c) && st.progress[c].events == [] && st.progress[c].waiting.None?
       && var chunks := st.nodes[NodeOf(st, c)].chunks;
          st.calls[c].id in chunks && |chunks[st.calls[c].id]| == st.calls[c].count then
      WithProgress(st, c, st.progress[c].(result := Some(Ok(st.nodes[NodeOf(st, c)].chunks[st.calls[c].id]))))
    else st
  }

  /** An origin that honours the range of `count` bytes at `off`, and sends something if it accepts. */
  predicate OriginHonours(blob: seq<byte>, off: int, count: int, h: Http) {
    Accepted(h) ==>
        0 <= off && h.body != [] && |h.body| <= count && off + |h.body| <= |blob| && h.body == blob[off..off + |h.body|]
  }

  /** The fetch ends. What it brought is returned, and is in the cache unless the item has been lost
      meanwhile. */
  function DoFill(cfg: Config, st: State, c: nat, origin: Http, kept: bool): State {
    if Active(st, c) && st.progress[c].waiting.None? && st.calls[c].count >= 0
       && st.calls[c].id.name in cfg.blobs
       && OriginHonours(cfg.blobs[st.calls[c].id.name], st.calls[c].id.off, st.calls[c].count, origin) then
      var call, p, n := st.calls[c], st.progress[c], NodeOf(st, c);
      var r := Fetched(call.asks, p.events, origin, call.count);
      var st1 := WithProgress(st, c, p.(result := Some(r)));
      if r.Ok? && kept then WithNode(st1, n, st.nodes[n].(chunks := st.nodes[n].chunks[call.id := r.value])) else st1
    else st
  }

  /** The disk fails the call. */
  function DoBreak(st: State, c: nat): State {
    if Active(st, c) then WithProgress(st, c, st.progress[c].(result := Some(Err), waiting := None)) else st
  }

  // ---------------------------------------------------------------- runs

  ghost function Step(cfg: Config, st: State, a: Action): State
    requires cfg.block > 0
  {
    match a
    case Client(node, name, headers) => DoClient(cfg, st, node, name, headers)
    case Admit(q) => DoAdmit(cfg, st, q)
    case Stat(q, response) => DoStat(cfg, st, q, response)
    case Forget(node, name) => DoForget(st, node, name)
    case Evict(node, id) => DoEvict(st, node, id)
    case Land(node, id, content) => DoLand(cfg, st, node, id, content)
    case Prefetch(q, segs) => DoPrefetch(cfg, st, q, segs)
    case Send(node, job) => DoSend(cfg, st, node, job)
    case Take(node, asks) => DoTake(cfg, st, node, asks)
    case Report(node, worker) => DoReport(st, node, worker)
    case Read(q, asks) => DoRead(cfg, st, q, asks)
    case Deliver(c, n) => DoDeliver(st, c, n)
    case Ask(c, peer, correlation, sender) => DoAsk(st, c, peer, correlation, sender)
    case Answered(c, lost) => DoAnswered(st, c, lost)
    case Skip(c, event) => DoSkip(st, c, event)
    case Hit(c) => DoHit(st, c)
    case Fill(c, origin, kept) => DoFill(cfg, st, c, origin, kept)
    case Break(c) => DoBreak(st, c)
  }

  ghost function Run(cfg: Config, nodes: nat, acts: seq<Action>): State
    requires cfg.block > 0
    decreases |acts|
  {
    if acts == [] then Init(nodes) else Step(cfg, Run(cfg, nodes, acts[..|acts| - 1]), acts[|acts| - 1])
  }

  // ---------------------------------------------------------------- going on from a state

  ghost predicate StepWhere(cfg: Config, which: Action -> bool, st: State, st': State)
    requires cfg.block > 0
  {
    exists a :: which(a) && st' == Step(cfg, st, a)
  }

  /** The steps by actions of one kind. */
  ghost function StepsWhere(cfg: Config, which: Action -> bool): (State, State) -> bool
    requires cfg.block > 0
  {
    (st, st') => StepWhere(cfg, which, st, st')
  }

  lemma StepGoes(cfg: Config, which: Action -> bool, st: State, a: Action)
    requires cfg.block > 0 && which(a)
    ensures Reaches(StepsWhere(cfg, which), st, Step(cfg, st, a))
  {
    assert StepWhere(cfg, which, st, Step(cfg, st, a));
    Goes(StepsWhere(cfg, which), st, Step(cfg, st, a));
  }

  lemma StepTaken(cfg: Config, which: Action -> bool, st: State, st': State) returns (a: Action)
    requires cfg.block > 0 && StepWhere(cfg, which, st, st')
    ensures which(a) && st' == Step(cfg, st, a)
  {
    a :| which(a) && st' == Step(cfg, st, a);
  }

  lemma RunLast(cfg: Config, nodes: nat, all: seq<Action>, before: seq<Action>, a: Action)
    requires cfg.block > 0 && all != [] && all[..|all| - 1] == before && all[|all| - 1] == a
    ensures Run(cfg, nodes, all) == Step(cfg, Run(cfg, nodes, before), a)
  {
  }

  lemma RunMore(cfg: Config, nodes: nat, acts: seq<Action>, more: seq<Action>, a: Action)
    requires cfg.block > 0
    ensures Run(cfg, nodes, acts + (more + [a])) == Step(cfg, Run(cfg, nodes, acts + more), a)
  {
    var all := acts + (more + [a]);
    assert all[..|all| - 1] == acts + more;
    RunLast(cfg, nodes, all, acts + more, a);
  }

  lemma {:induction false} PathByRun(cfg: Config, which: Action -> bool, nodes: nat, acts: seq<Action>, ss: seq<State>)
      returns (more: seq<Action>)
    requires cfg.block > 0 && Path(StepsWhere(cfg, which), ss) && ss[0] == Run(cfg, nodes, acts)
    ensures Run(cfg, nodes, acts + more) == ss[|ss| - 1] && forall i :: 0 <= i < |more| ==> which(more[i])
    decreases |ss|
  {
    if |ss| == 1 {
      more := [];
      assert acts + more == acts;
    } else {
      var m := |ss| - 1;
      assert Path(StepsWhere(cfg, which), ss[..m]);
      var before := PathByRun(cfg, which, nodes, acts, ss[..m]);
      var a := StepTaken(cfg, which, ss[m - 1], ss[m]);
      RunMore(cfg, nodes, acts, before, a);
      more := before + [a];
    }
  }

  /** Where such steps lead from a state of a run, a run leads by going on with such actions. */
  lemma GoesByRun(cfg: Config, which: Action -> bool, nodes: nat, acts: seq<Action>, st': State)
      returns (more: seq<Action>)
    requires cfg.block > 0 && Reaches(StepsWhere(cfg, which), Run(cfg, nodes, acts), st')
    ensures Run(cfg, nodes, acts + more) == st' && forall i :: 0 <= i < |more| ==> which(more[i])
  {
    var ss: seq<State> :| Path(StepsWhere(cfg, which), ss) && ss[0] == Run(cfg, nodes, acts) && ss[|ss| - 1] == st';
    more := PathByRun(cfg, which, nodes, acts, ss);
  }

  predicate Any(a: Action) { true }

  /** The cluster can come from one state to the other. */
  ghost predicate Comes(cfg: Config, st: State, st': State)
    requires cfg.block > 0
  {
    Reaches(StepsWhere(cfg, Any), st, st')
  }

  lemma ComesOn(cfg: Config, st: State, mid: State, end: State)
    requires cfg.block > 0 && Comes(cfg, st, mid) && Comes(cfg, mid, end)
    ensures Comes(cfg, st, end)
  {
    GoesOn(StepsWhere(cfg, Any), st, mid, end);
  }
}
