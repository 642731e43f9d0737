/** pkg/context/context.go and the request building of reader.go: headers, and the mark that says a
    request came from another node. Header names are taken as already canonical. */
module Context {
  import Keys

  type Headers = map<string, seq<string>>

  const P2P_HEADER: string := "X-MS-Peerd-RequestFromPeer"
  const CORRELATION_HEADER: string := "X-MS-Peerd-CorrelationId"
  const NODE_HEADER: string := "X-MS-Peerd-Node"
  const RANGE_HEADER: string := "Range"

  /** The first value of a header, or the empty string. */
  function Get(h: Headers, name: string): string {
    if name in h && |h[name]| > 0 then h[name][0] else ""
  }

  predicate IsRequestFromAPeer(h: Headers) { Get(h, P2P_HEADER) == "true" }

  function SetOutboundHeaders(h: Headers, correlationId: string, node: string): Headers {
    h[P2P_HEADER := ["true"]][CORRELATION_HEADER := [correlationId]][NODE_HEADER := [node]]
  }

  /** What a request to another server carries: the caller's own headers, the range, and the mark. */
  function Outbound(h: Headers, correlationId: string, node: string, start: int, end: int): Headers {
    SetOutboundHeaders(h[RANGE_HEADER := [Keys.RangeHeader(start, end)]], correlationId, node)
  }

  /** reader.go:269-285, copying the headers one by one. */
  method RemoteRequest(h: Headers, correlationId: string, node: string, start: int, end: int) returns (req: Headers)
    ensures req == Outbound(h, correlationId, node, start, end)
  {
    req := map[];
    var rest := h.Keys;
    while rest != {}
      invariant rest <= h.Keys && req.Keys == h.Keys - rest
      invariant forall k :: k in req ==> req[k] == h[k]
      decreases rest
    {
      var key :| key in rest;
      req := req[key := h[key]];
      rest := rest - {key};
    }
    assert req == h;
    req := req[RANGE_HEADER := [Keys.RangeHeader(start, end)]];
    req := SetOutboundHeaders(req, correlationId, node);
  }

  /** Only the word itself, first among the header's values, is the mark. */
  lemma MarkedExactly(h: Headers, values: seq<string>)
    ensures !IsRequestFromAPeer(h - {P2P_HEADER})
    ensures IsRequestFromAPeer(h[P2P_HEADER := values]) <==> exists rest :: values == ["true"] + rest
  {
    if values != [] && values[0] == "true" { assert values == ["true"] + values[1..]; }
  }

  /** Whatever the caller sent, even a mark or a range of its own, what goes out is marked and asks for
      the reader's range; every other header is passed on. */
  lemma OutboundIsMarked(h: Headers, correlationId: string, node: string, start: int, end: int)
    ensures var out := Outbound(h, correlationId, node, start, end);
            && IsRequestFromAPeer(out)
            && Get(out, RANGE_HEADER) == Keys.RangeHeader(start, end)
            && Get(out, CORRELATION_HEADER) == correlationId && Get(out, NODE_HEADER) == node
            && forall k :: k !in {P2P_HEADER, CORRELATION_HEADER, NODE_HEADER, RANGE_HEADER} ==>
                 Get(out, k) == Get(h, k)
  {
  }
}
