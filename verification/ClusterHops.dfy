/** Where requests come from: in every run, a request that a node sends to another is never passed on, and
    the peers of a call are asked in turn. */
module ClusterHops {
  import opened Common
  import opened Cluster
  import opened Reader
  import Context
  import Keys

  /** A call belongs to a session, and asks only for an unmarked one. */
  ghost predicate CallOk(requests: seq<Request>, call: Call) {
    call.session < |requests| && (call.asks ==> !Marked(requests[call.session]))
  }

  /** A request another node sent: marked, on behalf of an earlier session there that may ask, for the
      same name and exactly the range of the call. */
  ghost predicate ChildOf(requests: seq<Request>, q: nat, call: Call)
    requires q < |requests|
  {
    && call.session < q && call.asks && Marked(requests[q])
    && requests[q].node != requests[call.session].node
    && requests[q].name == requests[call.session].name
    && Range(requests[q]) == Keys.RangeHeader(call.id.off, call.id.off + call.count - 1)
  }

  ghost predicate RequestOk(requests: seq<Request>, calls: seq<Call>, q: nat)
    requires q < |requests|
  {
    requests[q].parent.Some? ==>
        requests[q].parent.value < |calls| && ChildOf(requests, q, calls[requests[q].parent.value])
  }

  ghost predicate Hops(requests: seq<Request>, calls: seq<Call>) {
    && (forall c :: 0 <= c < |calls| ==> CallOk(requests, calls[c]))
    && (forall q: nat :: q < |requests| ==> RequestOk(requests, calls, q))
  }

  lemma NewCall(requests: seq<Request>, calls: seq<Call>, call: Call)
    requires Hops(requests, calls) && CallOk(requests, call)
    ensures Hops(requests, calls + [call])
  {
    forall q: nat | q < |requests| ensures RequestOk(requests, calls + [call], q) {
      assert RequestOk(requests, calls, q);
    }
  }

  lemma NewRequest(requests: seq<Request>, calls: seq<Call>, r: Request)
    requires Hops(requests, calls) && RequestOk(requests + [r], calls, |requests|)
    ensures Hops(requests + [r], calls)
  {
    var more := requests + [r];
    forall c | 0 <= c < |calls| ensures CallOk(more, calls[c]) {
      assert CallOk(requests, calls[c]);
    }
    forall q: nat | q < |more| ensures RequestOk(more, calls, q) {
      if q < |requests| { assert RequestOk(requests, calls, q); }
    }
  }

  lemma AskKeepsHops(st: State, c: nat, peer: nat, correlation: string, sender: string)
    requires Hops(st.requests, st.calls)
    ensures var st' := DoAsk(st, c, peer, correlation, sender); Hops(st'.requests, st'.calls)
  {
    var st' := DoAsk(st, c, peer, correlation, sender);
    if st' != st {
      var call := st.calls[c];
      var headers := st.requests[call.session].headers;
      Context.OutboundIsMarked(headers, correlation, sender, call.id.off, call.id.off + call.count - 1);
      NewRequest(st.requests, st.calls, st'.requests[|st.requests|]);
    }
  }

  lemma TakeKeepsHops(cfg: Config, st: State, n: nat, asks: bool)
    requires Hops(st.requests, st.calls)
    ensures var st' := DoTake(cfg, st, n, asks); Hops(st'.requests, st'.calls)
  {
    var st' := DoTake(cfg, st, n, asks);
    if st' != st { NewCall(st.requests, st.calls, st'.calls[|st.calls|]); }
  }

  lemma ReadKeepsHops(cfg: Config, st: State, q: nat, asks: bool)
    requires cfg.block > 0 && Hops(st.requests, st.calls)
    ensures var st' := DoRead(cfg, st, q, asks); Hops(st'.requests, st'.calls)
  {
    var st' := DoRead(cfg, st, q, asks);
    if st' != st { NewCall(st.requests, st.calls, st'.calls[|st.calls|]); }
  }

  lemma StepKeepsHops(cfg: Config, st: State, a: Action)
    requires cfg.block > 0 && Hops(st.requests, st.calls)
    ensures Hops(Step(cfg, st, a).requests, Step(cfg, st, a).calls)
  {
    match a
    case Client(node, name, headers) => NewRequest(st.requests, st.calls, Request(node, name, headers, None));
    case Take(node, asks) => TakeKeepsHops(cfg, st, node, asks);
    case Read(q, asks) => ReadKeepsHops(cfg, st, q, asks);
    case Ask(c, peer, correlation, sender) => AskKeepsHops(st, c, peer, correlation, sender);
    case _ =>
  }

  lemma {:induction false} RunKeepsHops(cfg: Config, nodes: nat, acts: seq<Action>)
    requires cfg.block > 0
    ensures Hops(Run(cfg, nodes, acts).requests, Run(cfg, nodes, acts).calls)
    decreases |acts|
  {
    if acts != [] {
      var before := acts[..|acts| - 1];
      RunKeepsHops(cfg, nodes, before);
      StepKeepsHops(cfg, Run(cfg, nodes, before), acts[|acts| - 1]);
    }
  }

  // ---------------------------------------------------------------- the bound

  /** `path` leads down the tree of requests, each caused by a call made for the one before. */
  ghost predicate IsPath(st: State, path: seq<nat>) {
    && (forall i :: 0 <= i < |path| ==> path[i] < |st.requests|)
    && forall i :: 0 < i < |path| ==> Causes(st, path[i - 1], path[i])
  }

  ghost predicate Causes(st: State, q: nat, child: nat) {
    && q < |st.requests| && child < |st.requests| && st.requests[child].parent.Some?
    && st.requests[child].parent.value < |st.calls| && st.calls[st.requests[child].parent.value].session == q
  }

  /** In every run, whatever clients send, every path in the tree of requests has at most one hop, that
      hop leaves the node, and no node asks itself or is asked in a circle. Prefetch traffic is no
      exception. A request of a client that claims to be a peer causes no request at all. */
  lemma HopBound(cfg: Config, nodes: nat, acts: seq<Action>, path: seq<nat>)
    requires cfg.block > 0 && IsPath(Run(cfg, nodes, acts), path)
    ensures |path| <= 2
    ensures forall i, j :: 0 <= i < j < |path| ==>
              Run(cfg, nodes, acts).requests[path[i]].node != Run(cfg, nodes, acts).requests[path[j]].node
    ensures |path| == 2 ==>
              !Marked(Run(cfg, nodes, acts).requests[path[0]]) && Marked(Run(cfg, nodes, acts).requests[path[1]])
  {
    RunKeepsHops(cfg, nodes, acts);
    var st := Run(cfg, nodes, acts);
    if |path| >= 2 { HopShape(st, path[0], path[1]); }
    if |path| >= 3 { HopShape(st, path[1], path[2]); }
  }

  lemma HopShape(st: State, q: nat, child: nat)
    requires Hops(st.requests, st.calls) && Causes(st, q, child)
    ensures !Marked(st.requests[q]) && Marked(st.requests[child]) && st.requests[q].node != st.requests[child].node
    ensures q < child
  {
    assert RequestOk(st.requests, st.calls, child);
    assert CallOk(st.requests, st.calls[st.requests[child].parent.value]);
  }

  // ---------------------------------------------------------------- peers are asked in turn

  /** Nobody is asked, or has been, after an answer that filled the buffer, a timeout or the last peer. */
  predicate InTurn(call: Call, p: Progress) {
    && (p.waiting.Some? ==> call.asks && Searching(p.events, call.count))
    && (p.events != [] ==> call.asks && Searching(p.events[..|p.events| - 1], call.count))
  }

  lemma StepInTurn(cfg: Config, st: State, a: Action, c: nat)
    requires cfg.block > 0 && |st.calls| == |st.progress|
    requires c < |st.calls| ==> InTurn(st.calls[c], st.progress[c])
    ensures var st' := Step(cfg, st, a);
            |st'.calls| == |st'.progress| && (c < |st'.calls| ==> InTurn(st'.calls[c], st'.progress[c]))
  {
  }

  /** In every run, each call asks one peer after the other, and stops with the first whose answer fills
      the buffer, with a timeout, or with the last. */
  lemma {:induction false} RunInTurn(cfg: Config, nodes: nat, acts: seq<Action>, c: nat)
    requires cfg.block > 0
    ensures var st := Run(cfg, nodes, acts);
            |st.calls| == |st.progress| && (c < |st.calls| ==> InTurn(st.calls[c], st.progress[c]))
    decreases |acts|
  {
    if acts != [] {
      RunInTurn(cfg, nodes, acts[..|acts| - 1], c);
      StepInTurn(cfg, Run(cfg, nodes, acts[..|acts| - 1]), acts[|acts| - 1], c);
    }
  }

  /** After a peer that could not be asked the next one can be; after a timeout or the last peer, nobody. */
  lemma SkippedExactly(cfg: Config, st: State, c: nat, event: Event)
    requires cfg.block > 0 && CanAsk(st, c) && !event.Answer?
    ensures CanAsk(Step(cfg, st, Skip(c, event)), c) <==> event.BadRequest?
  {
    var events := st.progress[c].events + [event];
    assert events[|events| - 1] == event;
  }

  /** After an answer that does not fill the buffer the next peer can be asked; after one that does, nobody. */
  lemma AnsweredExactly(cfg: Config, st: State, c: nat, lost: bool)
    requires cfg.block > 0 && Active(st, c) && st.progress[c].waiting.Some? && InTurn(st.calls[c], st.progress[c])
    ensures var answer := AnswerOf(st, st.progress[c].waiting.value, lost);
            CanAsk(Step(cfg, st, Answered(c, lost)), c) <==> !Fills(answer, st.calls[c].count)
  {
    var events := st.progress[c].events + [Answer(AnswerOf(st, st.progress[c].waiting.value, lost))];
    assert events[|events| - 1] == Answer(AnswerOf(st, st.progress[c].waiting.value, lost));
  }
}
