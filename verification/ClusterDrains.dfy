/** The prefetch pipeline gets its work done: from every state that the cluster can come to, a node's
    pipeline can drain, and what was still to be sent or taken is advertised then. */
module ClusterDrains {
  import opened Common
  import opened Items
  import opened Reachability
  import opened Reader
  import opened Cluster
  import opened ClusterExact
  import opened ClusterTheorems
  import ClusterClients
  import ClusterPrefetch
  import ClusterServes
  import Int64
  import Segments

  // ---------------------------------------------------------------- a call returns

  /** No call has failed that had not failed before. */
  ghost predicate NoWorse(was: seq<Progress>, progress: seq<Progress>) {
    && |was| <= |progress|
    && forall c :: 0 <= c < |was| && progress[c].result == Some(Err) ==> was[c].result == Some(Err)
  }

  /** What does not change while a call comes to its end. */
  ghost predicate SameElse(st: State, st': State) {
    && st'.nodes == st.nodes && st'.requests == st.requests && st'.serving == st.serving && st'.calls == st.calls
    && NoWorse(st.progress, st'.progress)
  }

  lemma AnsweredDoes(cfg: Config, st: State, c: nat)
    requires cfg.block > 0 && Active(st, c) && st.progress[c].waiting.Some?
    ensures var st' := Step(cfg, st, Answered(c, true));
            SameElse(st, st') && Active(st', c) && st'.progress[c].waiting.None?
  {
  }

  lemma StopsWaiting(cfg: Config, st: State, c: nat) returns (st': State)
    requires ClusterServes.Good(cfg, st) && Active(st, c)
    ensures ClusterServes.Good(cfg, st') && Comes(cfg, st, st') && SameElse(st, st')
    ensures Active(st', c) && st'.progress[c].waiting.None?
  {
    if st.progress[c].waiting.Some? {
      AnsweredDoes(cfg, st, c);
      st' := ClusterClients.Takes(cfg, st, Answered(c, true));
    } else {
      st' := st;
      Stays(StepsWhere(cfg, Any), st);
    }
  }

  /** The call has come to success. */
  ghost predicate Succeeded(st: State, c: nat) {
    c < |st.progress| && st.progress[c].result.Some? && st.progress[c].result.value.Ok?
  }

  lemma FillDoes(cfg: Config, st: State, c: nat)
    requires cfg.block > 0 && Active(st, c) && st.progress[c].waiting.None? && CallExact(cfg, st.requests, st.calls[c])
    requires ProgressExact(cfg, st.requests, c, st.calls[c], st.progress[c])
    ensures var st' := Step(cfg, st, Fill(c, Response(206, Want(cfg, st.calls[c].id)), false));
            SameElse(st, st') && Succeeded(st', c)
  {
    OriginServes(st.calls[c].asks, st.progress[c].events, Want(cfg, st.calls[c].id));
  }

  /** A call under way can succeed. */
  lemma Succeeds(cfg: Config, st: State, c: nat) returns (st': State)
    requires ClusterServes.Good(cfg, st) && Active(st, c)
    ensures ClusterServes.Good(cfg, st') && Comes(cfg, st, st') && SameElse(st, st') && Succeeded(st', c)
  {
    var st1 := StopsWaiting(cfg, st, c);
    assert CallExact(cfg, st1.requests, st1.calls[c]);
    assert ProgressExact(cfg, st1.requests, c, st1.calls[c], st1.progress[c]);
    FillDoes(cfg, st1, c);
    st' := ClusterClients.Takes(cfg, st1, Fill(c, Response(206, Want(cfg, st1.calls[c].id)), false));
    ComesOn(cfg, st, st1, st');
  }

  // ---------------------------------------------------------------- a worker reports

  /** The node is `node` now, and requests and files are as they were. */
  ghost predicate Piped(st: State, st': State, n: nat, node: Node) {
    && n < |st.nodes| && |st'.nodes| == |st.nodes| && st'.nodes[n] == node
    && st'.requests == st.requests && st'.serving == st.serving && NoWorse(st.progress, st'.progress)
  }

  /** The node after its first worker has reported. */
  function Reported(node: Node, ok: bool): Node
    requires node.hands != []
  {
    var h, rest := node.hands[0], node.(hands := node.hands[1..]);
    if ok then rest.(advertised := node.advertised + [h]) else rest.(failed := node.failed + [h])
  }

  lemma ReportDoes(cfg: Config, st: State, n: nat)
    requires cfg.block > 0 && n < |st.nodes| && st.nodes[n].hands != []
    requires st.nodes[n].hands[0].call < |st.progress| && st.progress[st.nodes[n].hands[0].call].result.Some?
    ensures Piped(st, Step(cfg, st, Report(n, 0)), n,
                  Reported(st.nodes[n], Succeeded(st, st.nodes[n].hands[0].call)))
  {
    assert st.nodes[n].hands[..0] + st.nodes[n].hands[1..] == st.nodes[n].hands[1..];
  }

  /** The job in a worker's hands is one the node made. */
  lemma HandWasMade(node: Node, h: Hand)
    requires ClusterPrefetch.Conserved(node) && h in node.hands
    ensures h.job in node.made
  {
    var i :| 0 <= i < |node.hands| && node.hands[i] == h;
    ClusterPrefetch.JobsLess(node.hands, i);
  }

  lemma HandIsActive(cfg: Config, st: State, n: nat, h: Hand)
    requires ClusterServes.Good(cfg, st) && n < |st.nodes| && h in st.nodes[n].hands
    ensures h.call < |st.progress| && (st.progress[h.call].result.None? ==> Active(st, h.call))
  {
    var node := st.nodes[n];
    assert ClusterPrefetch.Conserved(node) && ClusterPrefetch.HandsOk(node, st.calls, st.progress);
    HandWasMade(node, h);
    assert ClusterPrefetch.HandOk(st.calls, h);
    assert NodeOk(cfg, st.requests, n, node);
    assert JobOk(cfg, st.requests, n, h.job);
  }

  lemma HandSettles(cfg: Config, st: State, n: nat, h: Hand) returns (st': State)
    requires ClusterServes.Good(cfg, st) && n < |st.nodes| && h in st.nodes[n].hands
    ensures ClusterServes.Good(cfg, st') && Comes(cfg, st, st') && SameElse(st, st')
    ensures h.call < |st.progress| && h.call < |st'.progress| && st'.progress[h.call].result.Some?
    ensures st.progress[h.call].result != Some(Err) ==> Succeeded(st', h.call)
  {
    HandIsActive(cfg, st, n, h);
    if st.progress[h.call].result.None? {
      st' := Succeeds(cfg, st, h.call);
    } else {
      st' := st;
      Stays(StepsWhere(cfg, Any), st);
    }
  }

  lemma Reports(cfg: Config, st: State, n: nat) returns (st': State)
    requires ClusterServes.Good(cfg, st) && n < |st.nodes| && st.nodes[n].hands != []
    requires st.nodes[n].hands[0].call < |st.progress| && st.progress[st.nodes[n].hands[0].call].result.Some?
    ensures ClusterServes.Good(cfg, st') && Comes(cfg, st, st')
    ensures Piped(st, st', n, Reported(st.nodes[n], Succeeded(st, st.nodes[n].hands[0].call)))
  {
    ReportDoes(cfg, st, n);
    st' := ClusterClients.Takes(cfg, st, Report(n, 0));
  }

  /** The first worker reports: success, unless its call has failed already. */
  lemma HandReports(cfg: Config, st: State, n: nat) returns (st': State, ok: bool)
    requires ClusterServes.Good(cfg, st) && n < |st.nodes| && st.nodes[n].hands != []
    ensures ClusterServes.Good(cfg, st') && Comes(cfg, st, st') && Piped(st, st', n, Reported(st.nodes[n], ok))
    ensures var c := st.nodes[n].hands[0].call;
            c < |st.progress| && (!ok ==> st.progress[c].result == Some(Err))
  {
    var h := st.nodes[n].hands[0];
    var st1 := HandSettles(cfg, st, n, h);
    ok := Succeeded(st1, h.call);
    st' := Reports(cfg, st1, n);
    ComesOn(cfg, st, st1, st');
  }

  // ---------------------------------------------------------------- taking and sending

  lemma TakeDoes(cfg: Config, st: State, n: nat)
    requires cfg.block > 0 && n < |st.nodes| && st.nodes[n].queue != [] && |st.nodes[n].hands| < cfg.workers
    requires st.nodes[n].queue[0].session < |st.requests| && |st.calls| == |st.progress|
    ensures var h := Hand(st.nodes[n].queue[0], |st.calls|);
            var st' := Step(cfg, st, Take(n, false));
            && Piped(st, st', n, st.nodes[n].(queue := st.nodes[n].queue[1..], hands := st.nodes[n].hands + [h]))
            && h.call < |st'.progress| && st'.progress[h.call].result.None?
  {
  }

  lemma QueuedHasSession(cfg: Config, st: State, n: nat)
    requires ClusterServes.Good(cfg, st) && n < |st.nodes| && st.nodes[n].queue != []
    ensures st.nodes[n].queue[0].session < |st.requests|
  {
    var node := st.nodes[n];
    assert ClusterPrefetch.Conserved(node) && NodeOk(cfg, st.requests, n, node);
    assert node.queue[0] in multiset(node.queue);
    assert JobOk(cfg, st.requests, n, node.queue[0]);
  }

  /** The workers of `node'` are idle, and `sending` and `queue` are left to do; no more has failed, and
      no more been made, than of `node`. */
  ghost predicate Further(node: Node, node': Node, sending: multiset<Job>, queue: seq<Job>) {
    && node'.hands == [] && node'.sending == sending && node'.queue == queue
    && node'.failed == node.failed && node'.made == node.made
  }

  /** The first job of the queue is done. */
  lemma JobDone(cfg: Config, st: State, n: nat) returns (st': State)
    requires ClusterServes.Good(cfg, st) && n < |st.nodes| && st.nodes[n].hands == [] && st.nodes[n].queue != []
    requires cfg.workers > 0
    ensures ClusterServes.Good(cfg, st') && Comes(cfg, st, st') && n < |st'.nodes| && Piped(st, st', n, st'.nodes[n])
    ensures Further(st.nodes[n], st'.nodes[n], st.nodes[n].sending, st.nodes[n].queue[1..])
  {
    QueuedHasSession(cfg, st, n);
    TakeDoes(cfg, st, n);
    var st1 := ClusterClients.Takes(cfg, st, Take(n, false));
    var ok;
    st', ok := HandReports(cfg, st1, n);
    ComesOn(cfg, st, st1, st');
  }

  lemma {:induction false} QueueDone(cfg: Config, st: State, n: nat) returns (st': State)
    requires ClusterServes.Good(cfg, st) && n < |st.nodes| && st.nodes[n].hands == [] && cfg.workers > 0
    ensures ClusterServes.Good(cfg, st') && Comes(cfg, st, st') && n < |st'.nodes| && Piped(st, st', n, st'.nodes[n])
    ensures Further(st.nodes[n], st'.nodes[n], st.nodes[n].sending, [])
    decreases |st.nodes[n].queue|
  {
    if st.nodes[n].queue == [] {
      st' := st;
      Stays(StepsWhere(cfg, Any), st);
    } else {
      var st1 := JobDone(cfg, st, n);
      st' := QueueDone(cfg, st1, n);
      ComesOn(cfg, st, st1, st');
    }
  }

  lemma SendDoes(cfg: Config, st: State, n: nat, job: Job)
    requires cfg.block > 0 && n < |st.nodes| && job in st.nodes[n].sending && |st.nodes[n].queue| < cfg.workers
    ensures Piped(st, Step(cfg, st, Send(n, job)), n,
                  st.nodes[n].(sending := st.nodes[n].sending - multiset{job}, queue := st.nodes[n].queue + [job]))
  {
  }

  /** One more job is sent, taken and done. */
  lemma SentJobDone(cfg: Config, st: State, n: nat, job: Job) returns (st': State)
    requires ClusterServes.Good(cfg, st) && n < |st.nodes| && st.nodes[n].hands == [] && st.nodes[n].queue == []
    requires cfg.workers > 0 && job in st.nodes[n].sending
    ensures ClusterServes.Good(cfg, st') && Comes(cfg, st, st') && n < |st'.nodes| && Piped(st, st', n, st'.nodes[n])
    ensures Further(st.nodes[n], st'.nodes[n], st.nodes[n].sending - multiset{job}, [])
  {
    SendDoes(cfg, st, n, job);
    var st1 := ClusterClients.Takes(cfg, st, Send(n, job));
    st' := QueueDone(cfg, st1, n);
    ComesOn(cfg, st, st1, st');
  }

  lemma {:induction false} SendingDone(cfg: Config, st: State, n: nat) returns (st': State)
    requires ClusterServes.Good(cfg, st) && n < |st.nodes| && st.nodes[n].hands == [] && st.nodes[n].queue == []
    requires cfg.workers > 0
    ensures ClusterServes.Good(cfg, st') && Comes(cfg, st, st') && n < |st'.nodes| && Piped(st, st', n, st'.nodes[n])
    ensures Further(st.nodes[n], st'.nodes[n], multiset{}, [])
    decreases |st.nodes[n].sending|
  {
    if st.nodes[n].sending == multiset{} {
      st' := st;
      Stays(StepsWhere(cfg, Any), st);
    } else {
      var job :| job in st.nodes[n].sending;
      var st1 := SentJobDone(cfg, st, n, job);
      st' := SendingDone(cfg, st1, n);
      ComesOn(cfg, st, st1, st');
    }
  }

  // ---------------------------------------------------------------- draining

  /** The job has failed, or is in the hands of a worker whose call has. */
  ghost predicate HasFailed(st: State, n: nat, h: Hand)
    requires n < |st.nodes|
  {
    || h in st.nodes[n].failed
    || (h in st.nodes[n].hands && h.call < |st.progress| && st.progress[h.call].result == Some(Err))
  }

  ghost predicate NoneFailed(st: State, st': State, n: nat)
    requires n < |st.nodes| && n < |st'.nodes|
  {
    forall h :: HasFailed(st', n, h) ==> HasFailed(st, n, h)
  }

  lemma ReportedHadFailed(st: State, st': State, n: nat, ok: bool, h: Hand)
    requires n < |st.nodes| && st.nodes[n].hands != [] && Piped(st, st', n, Reported(st.nodes[n], ok))
    requires HasFailed(st', n, h) && (h in st.nodes[n].hands ==> h.call < |st.progress|)
    requires var c := st.nodes[n].hands[0].call; c < |st.progress| && (!ok ==> st.progress[c].result == Some(Err))
    ensures HasFailed(st, n, h)
  {
  }

  lemma ReportFailsNone(cfg: Config, st: State, n: nat) returns (st': State)
    requires ClusterServes.Good(cfg, st) && n < |st.nodes| && st.nodes[n].hands != []
    ensures ClusterServes.Good(cfg, st') && Comes(cfg, st, st') && n < |st'.nodes| && Piped(st, st', n, st'.nodes[n])
    ensures |st'.nodes[n].hands| < |st.nodes[n].hands| && st'.nodes[n].made == st.nodes[n].made
    ensures NoneFailed(st, st', n)
  {
    var ok;
    st', ok := HandReports(cfg, st, n);
    forall h | HasFailed(st', n, h) ensures HasFailed(st, n, h) {
      if h in st.nodes[n].hands { HandIsActive(cfg, st, n, h); }
      ReportedHadFailed(st, st', n, ok, h);
    }
  }

  /** The workers come to rest. What they had fails only if its call had failed. */
  lemma {:induction false} HandsDone(cfg: Config, st: State, n: nat) returns (st': State)
    requires ClusterServes.Good(cfg, st) && n < |st.nodes|
    ensures ClusterServes.Good(cfg, st') && Comes(cfg, st, st') && n < |st'.nodes| && Piped(st, st', n, st'.nodes[n])
    ensures st'.nodes[n].hands == [] && st'.nodes[n].made == st.nodes[n].made && NoneFailed(st, st', n)
    decreases |st.nodes[n].hands|
  {
    if st.nodes[n].hands == [] {
      st' := st;
      Stays(StepsWhere(cfg, Any), st);
    } else {
      var st1 := ReportFailsNone(cfg, st, n);
      st' := HandsDone(cfg, st1, n);
      ComesOn(cfg, st, st1, st');
    }
  }

  lemma FurtherFailsNone(st: State, st': State, n: nat, sending: multiset<Job>, queue: seq<Job>)
    requires n < |st.nodes| && n < |st'.nodes| && Further(st.nodes[n], st'.nodes[n], sending, queue)
    ensures NoneFailed(st, st', n) && st'.nodes[n].made == st.nodes[n].made
  {
  }

  lemma Drains(cfg: Config, st: State, n: nat) returns (st': State)
    requires ClusterServes.Good(cfg, st) && n < |st.nodes| && cfg.workers > 0
    ensures Comes(cfg, st, st') && n < |st'.nodes| && Piped(st, st', n, st'.nodes[n]) && Drained(st'.nodes[n])
    ensures st'.nodes[n].made == st.nodes[n].made && NoneFailed(st, st', n)
  {
    var st1 := HandsDone(cfg, st, n);
    var st2 := QueueDone(cfg, st1, n);
    st' := SendingDone(cfg, st2, n);
    ComesOn(cfg, st, st1, st2);
    ComesOn(cfg, st, st2, st');
    FurtherFailsNone(st1, st2, n, st1.nodes[n].sending, []);
    FurtherFailsNone(st2, st', n, multiset{}, []);
  }

  // ---------------------------------------------------------------- every run

  /** A node never queues more jobs, or has more in hand, than it has workers; without any it makes none. */
  predicate Bounded(cfg: Config, node: Node) {
    && |node.queue| <= cfg.workers && |node.hands| <= cfg.workers
    && (cfg.workers == 0 ==> node.made == node.sending == multiset{})
  }

  /** The steps of the pipeline. */
  predicate OfPipeline(a: Action) { a.Prefetch? || a.Send? || a.Take? || a.Report? }

  lemma OthersStayBounded(cfg: Config, st: State, a: Action, n: nat)
    requires cfg.block > 0 && n < |st.nodes| && Bounded(cfg, st.nodes[n]) && !OfPipeline(a)
    ensures n < |Step(cfg, st, a).nodes| && Bounded(cfg, Step(cfg, st, a).nodes[n])
  {
  }

  lemma StepIsBounded(cfg: Config, st: State, a: Action, n: nat)
    requires cfg.block > 0 && n < |st.nodes| && Bounded(cfg, st.nodes[n])
    ensures n < |Step(cfg, st, a).nodes| && Bounded(cfg, Step(cfg, st, a).nodes[n])
  {
    if !OfPipeline(a) { OthersStayBounded(cfg, st, a, n); }
  }

  lemma {:induction false} RunIsBounded(cfg: Config, nodes: nat, acts: seq<Action>, n: nat)
    requires cfg.block > 0 && n < nodes
    ensures n < |Run(cfg, nodes, acts).nodes| && Bounded(cfg, Run(cfg, nodes, acts).nodes[n])
    decreases |acts|
  {
    if acts != [] {
      RunIsBounded(cfg, nodes, acts[..|acts| - 1], n);
      StepIsBounded(cfg, Run(cfg, nodes, acts[..|acts| - 1]), acts[|acts| - 1], n);
    }
  }

  /** In every run, whatever has happened so far: a node can come to have nothing left to prefetch, with
      nothing failed that had not failed by then. By conservation, all the rest of what it ever made is
      advertised then. */
  lemma PipelineDrains(cfg: Config, nodes: nat, acts: seq<Action>, n: nat) returns (more: seq<Action>)
    requires Sensible(cfg) && n < nodes
    ensures var st, st' := Run(cfg, nodes, acts), Run(cfg, nodes, acts + more);
            && n < |st.nodes| && n < |st'.nodes| && Drained(st'.nodes[n]) && st'.nodes[n].made == st.nodes[n].made
            && NoneFailed(st, st', n) && st'.requests == st.requests && st'.serving == st.serving
  {
    RunIsBounded(cfg, nodes, acts, n);
    if cfg.workers > 0 {
      ClusterServes.RunIsGood(cfg, nodes, acts);
      var st' := Drains(cfg, Run(cfg, nodes, acts), n);
      more := GoesByRun(cfg, Any, nodes, acts, st');
    } else {
      more := [];
      assert acts + more == acts;
    }
  }

  // ---------------------------------------------------------------- a whole file

  /** A file's jobs are made when its prefetching starts, and not before. */
  ghost predicate MadeLate(st: State) {
    forall n, job :: 0 <= n < |st.nodes| && job in st.nodes[n].made ==> Started(st, job.session)
  }

  predicate Started(st: State, q: nat) { q in st.serving && st.serving[q].Opened? && st.serving[q].prefetched }

  lemma StartedStays(cfg: Config, st: State, a: Action, q: nat)
    requires cfg.block > 0 && Started(st, q)
    ensures Started(Step(cfg, st, a), q)
  {
  }

  lemma MadeStep(cfg: Config, st: State, a: Action, n: nat, job: Job)
    requires cfg.block > 0 && n < |Step(cfg, st, a).nodes| && job in Step(cfg, st, a).nodes[n].made
    ensures n < |st.nodes| && (job in st.nodes[n].made || Started(Step(cfg, st, a), job.session))
  {
  }

  lemma {:induction false} RunMadeLate(cfg: Config, nodes: nat, acts: seq<Action>)
    requires cfg.block > 0
    ensures MadeLate(Run(cfg, nodes, acts))
    decreases |acts|
  {
    if acts != [] {
      var st, a := Run(cfg, nodes, acts[..|acts| - 1]), acts[|acts| - 1];
      RunMadeLate(cfg, nodes, acts[..|acts| - 1]);
      var st' := Step(cfg, st, a);
      forall n, job | 0 <= n < |st'.nodes| && job in st'.nodes[n].made ensures Started(st', job.session) {
        MadeStep(cfg, st, a, n, job);
        if job in st.nodes[n].made { StartedStays(cfg, st, a, job.session); }
      }
    }
  }

  lemma FailedWasMade(cfg: Config, st: State, n: nat, h: Hand)
    requires ClusterServes.Good(cfg, st) && n < |st.nodes| && HasFailed(st, n, h)
    ensures h.job in st.nodes[n].made
  {
    var node := st.nodes[n];
    assert ClusterPrefetch.Conserved(node);
    if h in node.hands {
      HandWasMade(node, h);
    } else {
      var i :| 0 <= i < |node.failed| && node.failed[i] == h;
      ClusterPrefetch.JobsLess(node.failed, i);
    }
  }

  /** The file of request `q` is being prefetched, and none of its jobs has failed. */
  ghost predicate Prefetching(st: State, q: nat) {
    && IsOpen(st, q) && Started(st, q)
    && forall h :: HasFailed(st, st.requests[q].node, h) ==> h.job.session != q
  }

  lemma PrefetchDoes(cfg: Config, st: State, q: nat, segs: seq<Segments.Segment>)
    requires cfg.block > 0 && IsOpen(st, q) && st.serving[q].size.Some? && !st.serving[q].prefetched
    requires cfg.workers > 0 && Int64.IsPow2(cfg.block)
    requires Segments.IsPartition(segs, 0, st.serving[q].size.value, cfg.block)
    ensures var st' := Step(cfg, st, Prefetch(q, segs));
            var n := st.requests[q].node;
            && IsOpen(st', q) && Started(st', q) && st'.requests == st.requests && st'.progress == st.progress
            && st'.nodes[n].failed == st.nodes[n].failed && st'.nodes[n].hands == st.nodes[n].hands
  {
  }

  lemma NoneOfItFailed(cfg: Config, st: State, q: nat, h: Hand)
    requires ClusterServes.Good(cfg, st) && MadeLate(st) && IsOpen(st, q) && !Started(st, q)
    requires HasFailed(st, st.requests[q].node, h)
    ensures h.job.session != q
  {
    FailedWasMade(cfg, st, st.requests[q].node, h);
  }

  /** The prefetching of an open file of a known size can start. */
  lemma Starts(cfg: Config, st: State, q: nat) returns (st': State)
    requires ClusterServes.Good(cfg, st) && MadeLate(st) && Int64.IsPow2(cfg.block) && cfg.workers > 0
    requires IsOpen(st, q) && st.serving[q].size.Some? && !st.serving[q].prefetched
    ensures Comes(cfg, st, st') && st'.requests == st.requests && Prefetching(st', q)
  {
    var segs := Segments.PartitionExists(0, st.serving[q].size.value, cfg.block);
    PrefetchDoes(cfg, st, q, segs);
    st' := ClusterClients.Takes(cfg, st, Prefetch(q, segs));
    forall h | HasFailed(st', st.requests[q].node, h) ensures h.job.session != q {
      assert HasFailed(st, st.requests[q].node, h);
      NoneOfItFailed(cfg, st, q, h);
    }
  }

  lemma PrefetchingCompletes(cfg: Config, nodes: nat, acts: seq<Action>, q: nat)
      returns (more: seq<Action>)
    requires Sensible(cfg) && Prefetching(Run(cfg, nodes, acts), q)
    ensures AllAdvertised(cfg, Run(cfg, nodes, acts + more), q)
  {
    var st := Run(cfg, nodes, acts);
    var n := st.requests[q].node;
    NodesStay(cfg, nodes, acts);
    more := PipelineDrains(cfg, nodes, acts, n);
    RunKeepsInv(cfg, nodes, acts + more);
    var st' := Run(cfg, nodes, acts + more);
    assert ServingOk(cfg, st'.requests[q], st'.serving[q]);
    var name := st'.requests[q].name;
    forall o: nat | o < |cfg.blobs[name]| ensures Has(st'.nodes[n].advertised, JobAt(cfg, q, name, o)) {
      DrainedIsComplete(cfg, nodes, acts + more, q, o);
      NotAmongFailed(st, st', n, JobAt(cfg, q, name, o));
    }
  }

  lemma {:induction false} NodesStay(cfg: Config, nodes: nat, acts: seq<Action>)
    requires cfg.block > 0
    ensures |Run(cfg, nodes, acts).nodes| == nodes
    decreases |acts|
  {
    if acts != [] {
      NodesStay(cfg, nodes, acts[..|acts| - 1]);
      NodesStep(cfg, Run(cfg, nodes, acts[..|acts| - 1]), acts[|acts| - 1]);
    }
  }

  lemma NotAmongFailed(st: State, st': State, n: nat, job: Job)
    requires n < |st.nodes| && n < |st'.nodes| && NoneFailed(st, st', n)
    requires forall h :: HasFailed(st, n, h) ==> h.job.session != job.session
    ensures !Has(st'.nodes[n].failed, job)
  {
    forall h | h in st'.nodes[n].failed ensures h.job != job { assert HasFailed(st', n, h); }
  }

  /** The chunk around each byte of the file opened for request `q` has been advertised by its node. */
  ghost predicate AllAdvertised(cfg: Config, st: State, q: nat) {
    && cfg.block > 0 && IsOpen(st, q) && st.requests[q].name in cfg.blobs
    && forall o: nat :: o < |cfg.blobs[st.requests[q].name]| ==>
         Has(st.nodes[st.requests[q].node].advertised, JobAt(cfg, q, st.requests[q].name, o))
  }

  /** In every run, a file that is open, and not yet being prefetched or with none of its jobs failed, can
      come to be advertised by its node, each of its chunks. */
  lemma PrefetchCompletes(cfg: Config, nodes: nat, acts: seq<Action>, q: nat) returns (more: seq<Action>)
    requires Sensible(cfg) && Int64.IsPow2(cfg.block) && cfg.workers > 0 && IsOpen(Run(cfg, nodes, acts), q)
    requires Started(Run(cfg, nodes, acts), q) ==> Prefetching(Run(cfg, nodes, acts), q)
    ensures AllAdvertised(cfg, Run(cfg, nodes, acts + more), q)
  {
    var start := [];
    if Started(Run(cfg, nodes, acts), q) {
      assert acts + start == acts;
    } else {
      start := StartsByRun(cfg, nodes, acts, q);
    }
    more := StartedCompletes(cfg, nodes, acts, start, q);
  }

  lemma StartedCompletes(cfg: Config, nodes: nat, acts: seq<Action>, start: seq<Action>, q: nat)
      returns (more: seq<Action>)
    requires Sensible(cfg) && Prefetching(Run(cfg, nodes, acts + start), q)
    ensures AllAdvertised(cfg, Run(cfg, nodes, acts + more), q)
  {
    var rest := PrefetchingCompletes(cfg, nodes, acts + start, q);
    more := start + rest;
    assert acts + start + rest == acts + more;
  }

  lemma StartsByRun(cfg: Config, nodes: nat, acts: seq<Action>, q: nat) returns (more: seq<Action>)
    requires Sensible(cfg) && Int64.IsPow2(cfg.block) && cfg.workers > 0
    requires IsOpen(Run(cfg, nodes, acts), q) && !Started(Run(cfg, nodes, acts), q)
    ensures Prefetching(Run(cfg, nodes, acts + more), q)
  {
    var st := Run(cfg, nodes, acts);
    ClusterServes.RunIsGood(cfg, nodes, acts);
    assert ServingOk(cfg, st.requests[q], st.serving[q]);
    var st1 := ClusterClients.Sized(cfg, st, q, st.serving[q]);
    var first := GoesByRun(cfg, Any, nodes, acts, st1);
    RunMadeLate(cfg, nodes, acts + first);
    var st2 := Starts(cfg, st1, q);
    ComesOn(cfg, st, st1, st2);
    more := GoesByRun(cfg, Any, nodes, acts, st2);
  }
}
