/** The other half of the cluster's purpose: a chunk that one node holds reaches another that asks for
    it, with the origin out of reach. */
module ClusterServes {
  import opened Common
  import opened Reachability
  import opened Items
  import opened Keys
  import opened Reader
  import opened Cluster
  import opened ClusterExact
  import ClusterHops
  import ClusterPrefetch
  import Segments

  ghost predicate Good(cfg: Config, st: State) {
    Sensible(cfg) && Inv(cfg, st) && ClusterHops.Hops(st.requests, st.calls) && ClusterPrefetch.Pipeline(st)
  }

  lemma StepIsGood(cfg: Config, st: State, a: Action)
    requires Good(cfg, st)
    ensures Good(cfg, Step(cfg, st, a))
  {
    StepKeepsInv(cfg, st, a);
    ClusterHops.StepKeepsHops(cfg, st, a);
    ClusterPrefetch.StepKeepsPipeline(cfg, st, a);
  }

  lemma RunIsGood(cfg: Config, nodes: nat, acts: seq<Action>)
    requires Sensible(cfg)
    ensures Good(cfg, Run(cfg, nodes, acts))
  {
    RunKeepsInv(cfg, nodes, acts);
    ClusterHops.RunKeepsHops(cfg, nodes, acts);
    ClusterPrefetch.RunKeepsPipeline(cfg, nodes, acts);
  }

  // ---------------------------------------------------------------- going on without the origin

  /** The origin gives nothing in this step. */
  predicate OriginSilent(a: Action) {
    (a.Fill? ==> a.origin == NoResponse) && (a.Stat? ==> FstatSize(a.response).Err?)
  }

  ghost predicate AllSilent(acts: seq<Action>) { forall i :: 0 <= i < |acts| ==> OriginSilent(acts[i]) }

  /** Steps in which the origin is silent lead from one state to the other. */
  ghost predicate Leads(cfg: Config, st: State, st': State)
    requires cfg.block > 0
  {
    Reaches(StepsWhere(cfg, OriginSilent), st, st')
  }

  lemma Goes(cfg: Config, st: State, a: Action) returns (st': State)
    requires Good(cfg, st) && OriginSilent(a)
    ensures st' == Step(cfg, st, a) && Leads(cfg, st, st') && Good(cfg, st')
  {
    st' := Step(cfg, st, a);
    StepIsGood(cfg, st, a);
    StepGoes(cfg, OriginSilent, st, a);
  }

  lemma GoesFarther(cfg: Config, st: State, mid: State, end: State)
    requires cfg.block > 0 && Leads(cfg, st, mid) && Leads(cfg, mid, end)
    ensures Leads(cfg, st, end)
  {
    GoesOn(StepsWhere(cfg, OriginSilent), st, mid, end);
  }

  // ---------------------------------------------------------------- the stages

  ghost predicate Holds(st: State, peer: nat, id: ChunkId, count: int) {
    && peer < |st.nodes| && id in st.nodes[peer].chunks && |st.nodes[peer].chunks[id]| == count
    && id.name in st.nodes[peer].sizes
  }

  /** Call `c` of node `home` has not returned. */
  ghost predicate Pending(st: State, c: nat, call: Call, home: nat) {
    Active(st, c) && st.calls[c] == call && call.asks && NodeOf(st, c) == home
  }

  /** It has found nothing yet and may ask; and a peer has the chunk, whole, and the file's size. */
  ghost predicate Ready(st: State, c: nat, call: Call, home: nat, peer: nat) {
    && Pending(st, c, call, home) && st.progress[c] == Progress([], None, None) && call.count >= 0
    && peer != home && Holds(st, peer, call.id, call.count)
  }

  /** It waits for request `q`, which the peer is to answer. */
  ghost predicate Waits(st: State, c: nat, call: Call, home: nat, peer: nat, q: nat) {
    && Pending(st, c, call, home) && st.progress[c] == Progress([], Some(q), None)
    && q < |st.requests| && st.requests[q].parent == Some(c) && st.requests[q].node == peer
    && Holds(st, peer, call.id, call.count)
  }

  /** The peer has opened the call's chunk for it, for exactly the chunk's bytes. */
  ghost predicate Opens(cfg: Config, st: State, call: Call, q: nat) {
    && q < |st.requests| && q in st.serving && st.serving[q].Opened?
    && OnGrid(cfg, call.id) && call.count == |Want(cfg, call.id)|
    && st.serving[q].file == call.id.name && st.serving[q].start == st.serving[q].chunkOffset == call.id.off
    && RangeEnd(Range(st.requests[q]), |cfg.blobs[call.id.name]|) == call.id.off + call.count
  }

  lemma OpensChunk(cfg: Config, st: State, c: nat, call: Call, home: nat, peer: nat, q: nat)
    requires Good(cfg, st) && Waits(st, c, call, home, peer, q) && q in st.serving && st.serving[q].Opened?
    ensures Opens(cfg, st, call, q)
  {
    assert CallExact(cfg, st.requests, call) && ServingOk(cfg, st.requests[q], st.serving[q]);
    ChildServes(cfg, st, q, c);
    assert ClusterHops.RequestOk(st.requests, st.calls, q);
    CrossNodeKey(call.id.name, call.id.off, call.count, cfg.block);
  }

  /** The peer knows the size and has sent `sent`. */
  ghost predicate Sends(cfg: Config, st: State, call: Call, q: nat, sent: seq<byte>) {
    Opens(cfg, st, call, q) && st.serving[q].size == Some(|cfg.blobs[call.id.name]|) && st.serving[q].sent == sent
  }

  /** The peer's own call `d` for the chunk. */
  ghost predicate Reads(st: State, call: Call, q: nat, d: nat, p: Progress) {
    && d < |st.calls| == |st.progress| && st.progress[d] == p
    && st.calls[d] == Call(q, call.id, call.count, false, Some(call.id.off))
  }

  // ---------------------------------------------------------------- from stage to stage

  lemma AskDoes(cfg: Config, st: State, c: nat, call: Call, home: nat, peer: nat)
    requires cfg.block > 0 && ServingsOk(cfg, st) && Ready(st, c, call, home, peer)
    ensures var st' := Step(cfg, st, Ask(c, peer, "", ""));
            Waits(st', c, call, home, peer, |st.requests|) && |st.requests| !in st'.serving
  {
  }

  lemma AskSent(cfg: Config, st: State, c: nat, call: Call, home: nat, peer: nat) returns (st': State, q: nat)
    requires Good(cfg, st) && Ready(st, c, call, home, peer)
    ensures Good(cfg, st') && Leads(cfg, st, st') && Waits(st', c, call, home, peer, q) && q !in st'.serving
  {
    AskDoes(cfg, st, c, call, home, peer);
    q := |st.requests|;
    st' := Goes(cfg, st, Ask(c, peer, "", ""));
  }

  /** A node that has something of the chunk opens it for the request of a call for it. */
  lemma ChunkAdmitted(cfg: Config, r: Request, node: Node, id: ChunkId, count: int)
    requires Sensible(cfg) && OnGrid(cfg, id) && count == |Want(cfg, id)|
    requires r.name == id.name && Marked(r) && Range(r) == RangeHeader(id.off, id.off + count - 1)
    requires id in node.chunks && node.chunks[id] != []
    ensures Admission(cfg, r, node) == Opened(id.name, id.off, id.off, None, false, [])
  {
    CrossNodeKey(id.name, id.off, count, cfg.block);
  }

  lemma Admitted(cfg: Config, st: State, c: nat, call: Call, home: nat, peer: nat, q: nat) returns (st': State)
    requires Good(cfg, st) && Waits(st, c, call, home, peer, q) && q !in st.serving
    ensures Good(cfg, st') && Leads(cfg, st, st') && Waits(st', c, call, home, peer, q)
    ensures Opens(cfg, st', call, q) && st'.serving[q].sent == []
  {
    assert CallExact(cfg, st.requests, call);
    assert ClusterHops.RequestOk(st.requests, st.calls, q);
    ChunkAdmitted(cfg, st.requests[q], st.nodes[peer], call.id, call.count);
    st' := Goes(cfg, st, Admit(q));
    OpensChunk(cfg, st', c, call, home, peer, q);
  }

  lemma StatDoes(cfg: Config, st: State, c: nat, call: Call, home: nat, peer: nat, q: nat)
    requires cfg.block > 0 && NodesOk(cfg, st) && Waits(st, c, call, home, peer, q)
    requires Opens(cfg, st, call, q) && st.serving[q].sent == []
    ensures var st' := Step(cfg, st, Stat(q, StatResponse(500, 0, "")));
            Waits(st', c, call, home, peer, q) && Sends(cfg, st', call, q, [])
  {
    assert NodeOk(cfg, st.requests, peer, st.nodes[peer]);
  }

  lemma Sized(cfg: Config, st: State, c: nat, call: Call, home: nat, peer: nat, q: nat) returns (st': State)
    requires Good(cfg, st) && Waits(st, c, call, home, peer, q) && Opens(cfg, st, call, q) && st.serving[q].sent == []
    ensures Good(cfg, st') && Leads(cfg, st, st') && Waits(st', c, call, home, peer, q) && Sends(cfg, st', call, q, [])
  {
    var a := Stat(q, StatResponse(500, 0, ""));
    assert OriginSilent(a);
    st' := Goes(cfg, st, a);
    StatDoes(cfg, st, c, call, home, peer, q);
  }

  lemma ReadDoes(cfg: Config, st: State, c: nat, call: Call, home: nat, peer: nat, q: nat)
    requires cfg.block > 0 && |st.calls| == |st.progress|
    requires Waits(st, c, call, home, peer, q) && Sends(cfg, st, call, q, [])
    ensures var st' := Step(cfg, st, Read(q, false));
            && Waits(st', c, call, home, peer, q) && Sends(cfg, st', call, q, [])
            && Reads(st', call, q, |st.calls|, Progress([], None, None))
  {
    Segments.AlignDownBlock(call.id.off, cfg.block);
    assert DoRead(cfg, st, q, false) == WithCall(st, Call(q, call.id, call.count, false, Some(call.id.off)));
  }

  lemma ReadStarted(cfg: Config, st: State, c: nat, call: Call, home: nat, peer: nat, q: nat)
      returns (st': State, d: nat)
    requires Good(cfg, st) && Waits(st, c, call, home, peer, q) && Sends(cfg, st, call, q, [])
    ensures Good(cfg, st') && Leads(cfg, st, st') && Waits(st', c, call, home, peer, q) && Sends(cfg, st', call, q, [])
    ensures Reads(st', call, q, d, Progress([], None, None)) && d != c
  {
    ReadDoes(cfg, st, c, call, home, peer, q);
    d := |st.calls|;
    st' := Goes(cfg, st, Read(q, false));
  }

  lemma HitDoes(cfg: Config, st: State, c: nat, call: Call, home: nat, peer: nat, q: nat, d: nat)
    requires cfg.block > 0 && NodesOk(cfg, st) && Waits(st, c, call, home, peer, q) && Sends(cfg, st, call, q, [])
    requires Reads(st, call, q, d, Progress([], None, None)) && d != c
    ensures var st' := Step(cfg, st, Hit(d));
            && Waits(st', c, call, home, peer, q) && Sends(cfg, st', call, q, [])
            && Reads(st', call, q, d, Progress([], None, Some(Ok(Want(cfg, call.id)))))
  {
    assert NodeOk(cfg, st.requests, peer, st.nodes[peer]);
    assert DoHit(st, d) == WithProgress(st, d, Progress([], None, Some(Ok(Want(cfg, call.id)))));
  }

  lemma ReadHits(cfg: Config, st: State, c: nat, call: Call, home: nat, peer: nat, q: nat, d: nat) returns (st': State)
    requires Good(cfg, st) && Waits(st, c, call, home, peer, q) && Sends(cfg, st, call, q, [])
    requires Reads(st, call, q, d, Progress([], None, None)) && d != c
    ensures Good(cfg, st') && Leads(cfg, st, st') && Waits(st', c, call, home, peer, q) && Sends(cfg, st', call, q, [])
    ensures Reads(st', call, q, d, Progress([], None, Some(Ok(Want(cfg, call.id))))) && d != c
  {
    HitDoes(cfg, st, c, call, home, peer, q, d);
    st' := Goes(cfg, st, Hit(d));
  }

  lemma DeliverDoes(cfg: Config, st: State, c: nat, call: Call, home: nat, peer: nat, q: nat, d: nat)
    requires cfg.block > 0 && Waits(st, c, call, home, peer, q) && Sends(cfg, st, call, q, [])
    requires Reads(st, call, q, d, Progress([], None, Some(Ok(Want(cfg, call.id)))))
    ensures var st' := Step(cfg, st, Deliver(d, call.count));
            Waits(st', c, call, home, peer, q) && Sends(cfg, st', call, q, Want(cfg, call.id))
  {
    var want := Want(cfg, call.id);
    assert CanDeliver(st, d, |want|);
    assert [] + want[0..|want|] == want;
  }

  lemma ReadDelivers(cfg: Config, st: State, c: nat, call: Call, home: nat, peer: nat, q: nat, d: nat)
      returns (st': State)
    requires Good(cfg, st) && Waits(st, c, call, home, peer, q) && Sends(cfg, st, call, q, [])
    requires Reads(st, call, q, d, Progress([], None, Some(Ok(Want(cfg, call.id)))))
    ensures Good(cfg, st') && Leads(cfg, st, st') && Waits(st', c, call, home, peer, q)
    ensures Sends(cfg, st', call, q, Want(cfg, call.id))
  {
    DeliverDoes(cfg, st, c, call, home, peer, q, d);
    st' := Goes(cfg, st, Deliver(d, call.count));
  }

  lemma AnswerDoes(cfg: Config, st: State, c: nat, call: Call, home: nat, peer: nat, q: nat)
    requires cfg.block > 0 && OnGrid(cfg, call.id) && Waits(st, c, call, home, peer, q)
    requires Sends(cfg, st, call, q, Want(cfg, call.id))
    ensures var st' := Step(cfg, st, Answered(c, false));
            && Pending(st', c, call, home)
            && st'.progress[c] == Progress([Answer(Response(206, Want(cfg, call.id)))], None, None)
  {
  }

  lemma AnswerArrives(cfg: Config, st: State, c: nat, call: Call, home: nat, peer: nat, q: nat) returns (st': State)
    requires Good(cfg, st) && OnGrid(cfg, call.id) && Waits(st, c, call, home, peer, q)
    requires Sends(cfg, st, call, q, Want(cfg, call.id))
    ensures Good(cfg, st') && Leads(cfg, st, st') && Pending(st', c, call, home)
    ensures st'.progress[c] == Progress([Answer(Response(206, Want(cfg, call.id)))], None, None)
  {
    AnswerDoes(cfg, st, c, call, home, peer, q);
    st' := Goes(cfg, st, Answered(c, false));
  }

  /** The call has returned the chunk, and its node has it. */
  ghost predicate Got(cfg: Config, st: State, c: nat, id: ChunkId, home: nat) {
    && OnGrid(cfg, id) && c < |st.progress| && st.progress[c].result == Some(Ok(Want(cfg, id)))
    && home < |st.nodes| && id in st.nodes[home].chunks && st.nodes[home].chunks[id] == Want(cfg, id)
  }

  lemma AnswerFills(want: seq<byte>)
    ensures Fetched(true, [Answer(Response(206, want))], NoResponse, |want|) == Ok(want)
  {
    var events := [Answer(Response(206, want))];
    assert PeerLoop(events, 0, Zeros(|want|)).Found?;
    LoopFindsFirst(events, 0, Zeros(|want|));
    assert want[..|want|] == want;
  }

  lemma FillDoes(cfg: Config, st: State, c: nat, call: Call, home: nat)
    requires cfg.block > 0 && CallsOk(cfg, st.requests, st.calls) && Pending(st, c, call, home) && OnGrid(cfg, call.id)
    requires st.progress[c] == Progress([Answer(Response(206, Want(cfg, call.id)))], None, None)
    ensures Got(cfg, Step(cfg, st, Fill(c, NoResponse, true)), c, call.id, home)
  {
    assert CallExact(cfg, st.requests, call);
    AnswerFills(Want(cfg, call.id));
  }

  lemma ChunkInstalled(cfg: Config, st: State, c: nat, call: Call, home: nat) returns (st': State)
    requires Good(cfg, st) && Pending(st, c, call, home) && OnGrid(cfg, call.id)
    requires st.progress[c] == Progress([Answer(Response(206, Want(cfg, call.id)))], None, None)
    ensures Leads(cfg, st, st') && Got(cfg, st', c, call.id, home)
  {
    FillDoes(cfg, st, c, call, home);
    st' := Goes(cfg, st, Fill(c, NoResponse, true));
  }

  // ---------------------------------------------------------------- the whole way

  /** The request reaches the peer, which opens the file. */
  lemma PeerOpens(cfg: Config, st: State, c: nat, call: Call, home: nat, peer: nat) returns (st': State, q: nat)
    requires Good(cfg, st) && Ready(st, c, call, home, peer)
    ensures Good(cfg, st') && Leads(cfg, st, st') && Waits(st', c, call, home, peer, q) && Sends(cfg, st', call, q, [])
  {
    var st1, st2;
    st1, q := AskSent(cfg, st, c, call, home, peer);
    st2 := Admitted(cfg, st1, c, call, home, peer, q);
    st' := Sized(cfg, st2, c, call, home, peer, q);
    GoesFarther(cfg, st, st1, st2);
    GoesFarther(cfg, st, st2, st');
  }

  /** The peer reads the chunk from its own cache and sends all of it. */
  lemma PeerSends(cfg: Config, st: State, c: nat, call: Call, home: nat, peer: nat, q: nat) returns (st': State)
    requires Good(cfg, st) && Waits(st, c, call, home, peer, q) && Sends(cfg, st, call, q, [])
    ensures Good(cfg, st') && Leads(cfg, st, st') && Waits(st', c, call, home, peer, q)
    ensures Sends(cfg, st', call, q, Want(cfg, call.id))
  {
    var st1, d := ReadStarted(cfg, st, c, call, home, peer, q);
    var st2 := ReadHits(cfg, st1, c, call, home, peer, q, d);
    st' := ReadDelivers(cfg, st2, c, call, home, peer, q, d);
    GoesFarther(cfg, st, st1, st2);
    GoesFarther(cfg, st, st2, st');
  }

  lemma Travels(cfg: Config, st: State, c: nat, call: Call, home: nat, peer: nat) returns (st': State)
    requires Good(cfg, st) && Ready(st, c, call, home, peer)
    ensures Leads(cfg, st, st') && Got(cfg, st', c, call.id, home)
  {
    var st1, q := PeerOpens(cfg, st, c, call, home, peer);
    var st2 := PeerSends(cfg, st1, c, call, home, peer, q);
    var st3 := AnswerArrives(cfg, st2, c, call, home, peer, q);
    st' := ChunkInstalled(cfg, st3, c, call, home);
    GoesFarther(cfg, st, st1, st2);
    GoesFarther(cfg, st, st2, st3);
    GoesFarther(cfg, st, st3, st');
  }

  /** Every run that has come to a state in which a call may ask and another node holds its chunk and
      its file's size can go on, without a byte from the origin, until the call has returned the chunk
      and the asking node has it too. */
  lemma ChunkTravels(cfg: Config, nodes: nat, acts: seq<Action>, c: nat, call: Call, home: nat, peer: nat)
      returns (more: seq<Action>)
    requires Sensible(cfg) && Ready(Run(cfg, nodes, acts), c, call, home, peer)
    ensures AllSilent(more) && Got(cfg, Run(cfg, nodes, acts + more), c, call.id, home)
  {
    var st := Run(cfg, nodes, acts);
    RunIsGood(cfg, nodes, acts);
    var st' := Travels(cfg, st, c, call, home, peer);
    more := GoesByRun(cfg, OriginSilent, nodes, acts, st');
  }
}
