/** The prefetch pipeline of every node in every run: nothing is lost, nothing is made up, and what is
    advertised has been got. */
module ClusterPrefetch {
  import opened Common
  import opened Items
  import opened Cluster
  import opened Keys
  import Reader
  import Segments

  ghost function Jobs(hands: seq<Hand>): multiset<Job> {
    multiset(seq(|hands|, i requires 0 <= i < |hands| => hands[i].job))
  }

  lemma JobsMore(hands: seq<Hand>, h: Hand)
    ensures Jobs(hands + [h]) == Jobs(hands) + multiset{h.job}
  {
    var was := seq(|hands|, i requires 0 <= i < |hands| => hands[i].job);
    assert seq(|hands| + 1, i requires 0 <= i < |hands| + 1 => (hands + [h])[i].job) == was + [h.job];
  }

  lemma JobsLess(hands: seq<Hand>, w: nat)
    requires w < |hands|
    ensures Jobs(hands) == Jobs(hands[..w] + hands[w + 1..]) + multiset{hands[w].job}
  {
    var all := seq(|hands|, i requires 0 <= i < |hands| => hands[i].job);
    var rest := hands[..w] + hands[w + 1..];
    assert seq(|rest|, i requires 0 <= i < |rest| => rest[i].job) == all[..w] + all[w + 1..];
    assert all == all[..w] + [all[w]] + all[w + 1..];
  }

  /** Every segment that was made is being sent, queued, in a worker's hands, failed or advertised. */
  ghost predicate Conserved(node: Node) {
    node.made == node.sending + multiset(node.queue) + Jobs(node.hands) + Jobs(node.failed) + Jobs(node.advertised)
  }

  /** The hand's call is for its job. */
  ghost predicate HandOk(calls: seq<Call>, h: Hand) {
    && h.call < |calls| && calls[h.call].id == h.job.id
    && calls[h.call].session == h.job.session && calls[h.call].count == h.job.count
  }

  ghost predicate Returned(progress: seq<Progress>, h: Hand, ok: bool) {
    h.call < |progress| && progress[h.call].result.Some? && (progress[h.call].result.value.Ok? <==> ok)
  }

  ghost predicate HandsOk(node: Node, calls: seq<Call>, progress: seq<Progress>) {
    && (forall h :: h in node.hands ==> HandOk(calls, h))
    && (forall h :: h in node.failed ==> HandOk(calls, h) && Returned(progress, h, false))
    && (forall h :: h in node.advertised ==> HandOk(calls, h) && Returned(progress, h, true))
  }

  ghost predicate Pipeline(st: State) {
    && |st.calls| == |st.progress|
    && forall n :: 0 <= n < |st.nodes| ==> Conserved(st.nodes[n]) && HandsOk(st.nodes[n], st.calls, st.progress)
  }

  /** Steps of one node's pipeline. */
  lemma NodeKeeps(st: State, n: nat, node: Node)
    requires Pipeline(st) && n < |st.nodes| && Conserved(node) && HandsOk(node, st.calls, st.progress)
    ensures Pipeline(WithNode(st, n, node))
  {
  }

  /** A call that has returned keeps its result. */
  lemma ProgressKeeps(st: State, c: nat, p: Progress)
    requires Pipeline(st) && c < |st.progress| && st.progress[c].result.None?
    ensures Pipeline(WithProgress(st, c, p))
  {
  }

  lemma CallKeeps(st: State, call: Call)
    requires Pipeline(st)
    ensures Pipeline(WithCall(st, call))
  {
  }

  lemma MakeKeeps(node: Node, jobs: multiset<Job>, calls: seq<Call>, progress: seq<Progress>)
    requires Conserved(node) && HandsOk(node, calls, progress)
    ensures var node' := node.(made := node.made + jobs, sending := node.sending + jobs);
            Conserved(node') && HandsOk(node', calls, progress)
  {
  }

  lemma PrefetchKeeps(cfg: Config, st: State, q: nat, segs: seq<Segments.Segment>)
    requires cfg.block > 0 && Pipeline(st)
    ensures Pipeline(Step(cfg, st, Prefetch(q, segs)))
  {
    var st' := DoPrefetch(cfg, st, q, segs);
    if st' != st {
      var n := st.requests[q].node;
      assert Conserved(st.nodes[n]) && HandsOk(st.nodes[n], st.calls, st.progress);
      MakeKeeps(st.nodes[n], multiset(JobsOf(q, st.serving[q].file, segs)), st.calls, st.progress);
      NodeKeeps(st, n, st'.nodes[n]);
    }
  }

  lemma SendKeeps(cfg: Config, st: State, n: nat, job: Job)
    requires cfg.block > 0 && Pipeline(st)
    ensures Pipeline(Step(cfg, st, Send(n, job)))
  {
    if DoSend(cfg, st, n, job) != st {
      var node := st.nodes[n];
      assert Conserved(node) && HandsOk(node, st.calls, st.progress);
      assert node.sending == node.sending - multiset{job} + multiset{job};
      NodeKeeps(st, n, DoSend(cfg, st, n, job).nodes[n]);
    }
  }

  lemma TakeKeeps(cfg: Config, st: State, n: nat, asks: bool)
    requires cfg.block > 0 && Pipeline(st)
    ensures Pipeline(Step(cfg, st, Take(n, asks)))
  {
    var st' := DoTake(cfg, st, n, asks);
    if st' != st {
      var node, job := st.nodes[n], st.nodes[n].queue[0];
      var hand := Hand(job, |st.calls|);
      CallKeeps(st, st'.calls[|st.calls|]);
      var mid := WithCall(st, st'.calls[|st.calls|]);
      assert Conserved(mid.nodes[n]) && HandsOk(mid.nodes[n], mid.calls, mid.progress);
      JobsMore(node.hands, hand);
      assert node.queue == [job] + node.queue[1..];
      NodeKeeps(mid, n, st'.nodes[n]);
    }
  }

  function Without(hands: seq<Hand>, w: nat): seq<Hand>
    requires w < |hands|
  {
    hands[..w] + hands[w + 1..]
  }

  lemma AdvertiseKeeps(node: Node, calls: seq<Call>, progress: seq<Progress>, w: nat)
    requires w < |node.hands| && Conserved(node) && HandsOk(node, calls, progress)
    requires Returned(progress, node.hands[w], true)
    ensures var node' := node.(hands := Without(node.hands, w), advertised := node.advertised + [node.hands[w]]);
            Conserved(node') && HandsOk(node', calls, progress)
  {
    JobsLess(node.hands, w);
    JobsMore(node.advertised, node.hands[w]);
  }

  lemma FailKeeps(node: Node, calls: seq<Call>, progress: seq<Progress>, w: nat)
    requires w < |node.hands| && Conserved(node) && HandsOk(node, calls, progress)
    requires Returned(progress, node.hands[w], false)
    ensures var node' := node.(hands := Without(node.hands, w), failed := node.failed + [node.hands[w]]);
            Conserved(node') && HandsOk(node', calls, progress)
  {
    JobsLess(node.hands, w);
    JobsMore(node.failed, node.hands[w]);
  }

  lemma ReportKeeps(cfg: Config, st: State, n: nat, w: nat)
    requires cfg.block > 0 && Pipeline(st)
    ensures Pipeline(Step(cfg, st, Report(n, w)))
  {
    var st' := DoReport(st, n, w);
    if st' != st {
      var node, hand := st.nodes[n], st.nodes[n].hands[w];
      assert Conserved(node) && HandsOk(node, st.calls, st.progress);
      if st.progress[hand.call].result.value.Ok? {
        AdvertiseKeeps(node, st.calls, st.progress, w);
      } else {
        FailKeeps(node, st.calls, st.progress, w);
      }
      NodeKeeps(st, n, st'.nodes[n]);
    }
  }

  /** The steps of a call under way. */
  lemma CallStepKeeps(cfg: Config, st: State, a: Action)
    requires cfg.block > 0 && Pipeline(st) && (a.Ask? || a.Answered? || a.Skip? || a.Hit? || a.Break?)
    ensures Pipeline(Step(cfg, st, a))
  {
    var st' := Step(cfg, st, a);
    if Active(st, a.c) {
      assert st'.nodes == st.nodes && st'.calls == st.calls && st'.progress == st.progress[a.c := st'.progress[a.c]];
      ProgressKeeps(st, a.c, st'.progress[a.c]);
    }
  }

  /** Changes of a node's caches leave the pipeline alone. */
  lemma CacheKeeps(st: State, n: nat, chunks: map<ChunkId, seq<byte>>, sizes: map<string, int>)
    requires Pipeline(st) && n < |st.nodes|
    ensures Pipeline(WithNode(st, n, st.nodes[n].(chunks := chunks, sizes := sizes)))
  {
    assert Conserved(st.nodes[n]) && HandsOk(st.nodes[n], st.calls, st.progress);
    NodeKeeps(st, n, st.nodes[n].(chunks := chunks, sizes := sizes));
  }

  lemma ForgetKeeps(cfg: Config, st: State, n: nat, name: string)
    requires cfg.block > 0 && Pipeline(st)
    ensures Pipeline(Step(cfg, st, Forget(n, name)))
  {
    if n < |st.nodes| { CacheKeeps(st, n, st.nodes[n].chunks, st.nodes[n].sizes - {name}); }
  }

  lemma EvictKeeps(cfg: Config, st: State, n: nat, id: ChunkId)
    requires cfg.block > 0 && Pipeline(st)
    ensures Pipeline(Step(cfg, st, Evict(n, id)))
  {
    if n < |st.nodes| { CacheKeeps(st, n, st.nodes[n].chunks - {id}, st.nodes[n].sizes); }
  }

  lemma LandKeeps(cfg: Config, st: State, n: nat, id: ChunkId, content: seq<byte>)
    requires cfg.block > 0 && Pipeline(st)
    ensures Pipeline(Step(cfg, st, Land(n, id, content)))
  {
    if n < |st.nodes| { CacheKeeps(st, n, st.nodes[n].chunks[id := content], st.nodes[n].sizes); }
  }

  lemma StatKeeps(cfg: Config, st: State, q: nat, response: StatResponse)
    requires cfg.block > 0 && Pipeline(st)
    ensures Pipeline(Step(cfg, st, Stat(q, response)))
  {
    if IsOpen(st, q) {
      var n := st.requests[q].node;
      CacheKeeps(st, n, st.nodes[n].chunks, DoStat(cfg, st, q, response).nodes[n].sizes);
    }
  }

  lemma StepKeepsPipeline(cfg: Config, st: State, a: Action)
    requires cfg.block > 0 && Pipeline(st)
    ensures Pipeline(Step(cfg, st, a))
  {
    match a
    case Client(_, _, _) =>
    case Admit(_) =>
    case Deliver(_, _) =>
    case Stat(q, response) => StatKeeps(cfg, st, q, response);
    case Prefetch(q, segs) => PrefetchKeeps(cfg, st, q, segs);
    case Send(node, job) => SendKeeps(cfg, st, node, job);
    case Take(node, asks) => TakeKeeps(cfg, st, node, asks);
    case Report(node, worker) => ReportKeeps(cfg, st, node, worker);
    case Read(q, asks) => ReadKeeps(cfg, st, q, asks);
    case Fill(c, origin, kept) => FillKeeps(cfg, st, c, origin, kept);
    case Forget(node, name) => ForgetKeeps(cfg, st, node, name);
    case Evict(node, id) => EvictKeeps(cfg, st, node, id);
    case Land(node, id, content) => LandKeeps(cfg, st, node, id, content);
    case _ => CallStepKeeps(cfg, st, a);
  }

  lemma ReadKeeps(cfg: Config, st: State, q: nat, asks: bool)
    requires cfg.block > 0 && Pipeline(st)
    ensures Pipeline(Step(cfg, st, Read(q, asks)))
  {
    var st' := DoRead(cfg, st, q, asks);
    if st' != st { CallKeeps(st, st'.calls[|st.calls|]); }
  }

  lemma FillKeeps(cfg: Config, st: State, c: nat, origin: Reader.Http, kept: bool)
    requires cfg.block > 0 && Pipeline(st)
    ensures Pipeline(Step(cfg, st, Fill(c, origin, kept)))
  {
    var st' := DoFill(cfg, st, c, origin, kept);
    if st' != st {
      var mid := WithProgress(st, c, st'.progress[c]);
      ProgressKeeps(st, c, st'.progress[c]);
      var n := NodeOf(st, c);
      assert Conserved(mid.nodes[n]) && HandsOk(mid.nodes[n], mid.calls, mid.progress);
      if st'.nodes != st.nodes { NodeKeeps(mid, n, st'.nodes[n]); }
    }
  }

  lemma {:induction false} RunKeepsPipeline(cfg: Config, nodes: nat, acts: seq<Action>)
    requires cfg.block > 0
    ensures Pipeline(Run(cfg, nodes, acts))
    decreases |acts|
  {
    if acts == [] {
      assert Conserved(EMPTY_NODE);
    } else {
      var before := acts[..|acts| - 1];
      RunKeepsPipeline(cfg, nodes, before);
      StepKeepsPipeline(cfg, Run(cfg, nodes, before), acts[|acts| - 1]);
    }
  }
}
