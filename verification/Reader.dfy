/** pkg/discovery/content/reader/reader.go and FetchFile: filling a buffer from the first peer that can,
    or else from the origin. */
module Reader {
  import opened Common
  import Routing

  /** What came back for a request: nothing, or a status and as much body as arrived. */
  datatype Http = NoResponse | Response(status: int, body: seq<byte>)

  datatype Error = NoError | EOF | Failed

  /** What one turn of the peer loop's select receives. The context always ends it in the end. */
  datatype Event = TimedOut | ChannelClosed | BadRequest | Answer(http: Http)

  predicate Accepted(h: Http) { h.Response? && (h.status == 200 || h.status == 206) }

  /** The whole buffer can be filled from this answer. */
  predicate Fills(h: Http, n: nat) { Accepted(h) && |h.body| >= n }

  function Overlay(buf: seq<byte>, body: seq<byte>): (r: seq<byte>)
    ensures |r| == |buf|
  {
    var k := Min(|body|, |buf|);
    body[..k] + buf[k..]
  }

  /** The buffer after an answer: a body that ends early leaves what it brought. */
  function After(buf: seq<byte>, h: Http): (r: seq<byte>)
    ensures |r| == |buf|
  {
    if Accepted(h) then Overlay(buf, h.body) else buf
  }

  /** io.ReadFull into `buf`. */
  method ReadFull(body: seq<byte>, buf: array<byte>) returns (n: nat, err: Error)
    modifies buf
    ensures buf[..] == Overlay(old(buf[..]), body)
    ensures n == Min(|body|, buf.Length)
    ensures err == if |body| >= buf.Length then NoError else if body == [] then EOF else Failed
  {
    n := 0;
    while n < buf.Length && n < |body|
      invariant n <= buf.Length && n <= |body|
      invariant forall k :: 0 <= k < n ==> buf[k] == body[k]
      invariant forall k :: n <= k < buf.Length ==> buf[k] == old(buf[k])
    {
      buf[n] := body[n];
      n := n + 1;
    }
    err := if n == buf.Length then NoError else if n == 0 then EOF else Failed;
  }

  method PreadOne(h: Http, buf: array<byte>) returns (n: nat, err: Error)
    modifies buf
    ensures buf[..] == After(old(buf[..]), h)
    ensures err == NoError <==> h.Response? && h.status in {200, 206} && |h.body| >= buf.Length
    ensures err == NoError ==> n == buf.Length
    ensures err == EOF <==> h.Response? && h.status in {200, 206} && h.body == [] && buf.Length > 0
  {
    if h.NoResponse? {
      return 0, Failed;
    }
    if h.status != 200 && h.status != 206 {
      return 0, Failed;
    }
    n, err := ReadFull(h.body, buf);
  }

  // ---------------------------------------------------------------- the peer loop

  datatype LoopEnd = Found(buf: seq<byte>, at: nat) | Gone(buf: seq<byte>)

  /** The first event that fills the buffer ends the search; a timeout or a closed channel gives up.
      `at` counts from `from`. */
  function PeerLoop(events: seq<Event>, from: nat, buf: seq<byte>): (r: LoopEnd)
    requires from <= |events|
    ensures |r.buf| == |buf|
    decreases |events| - from
  {
    if from == |events| then Gone(buf)
    else
      match events[from]
      case TimedOut => Gone(buf)
      case ChannelClosed => Gone(buf)
      case BadRequest => PeerLoop(events, from + 1, buf)
      case Answer(h) =>
        if Fills(h, |buf|) then Found(After(buf, h), from) else PeerLoop(events, from + 1, After(buf, h))
  }

  /** How a lookup answers: refused from the negative cache or by an error, or a stream of events. */
  datatype Resolution = Resolution(error: bool, events: seq<Event>)

  /** Whether a reader asks anybody: not on behalf of a peer, not while a failure is remembered. */
  predicate Asks(fromPeer: bool, refused: bool, res: Resolution) { !fromPeer && !refused && !res.error }

  /** The whole of PreadRemote as a function of what the network does. */
  datatype Pread = Pread(buf: seq<byte>, err: Error, peer: Option<nat>, origin: bool, callbacks: nat)

  function Outcome(h: Http, n: nat): Error {
    if Fills(h, n) then NoError else if Accepted(h) && h.body == [] then EOF else Failed
  }

  function FromOrigin(buf: seq<byte>, origin: Http, callbacks: nat): Pread {
    Pread(After(buf, origin), Outcome(origin, |buf|), None, true, callbacks)
  }

  function PreadResult(asks: bool, events: seq<Event>, origin: Http, buf: seq<byte>): Pread {
    if !asks then FromOrigin(buf, origin, 0)
    else
      match PeerLoop(events, 0, buf)
      case Found(b, at) => Pread(b, NoError, Some(at), false, 0)
      case Gone(b) => FromOrigin(b, origin, 1)
  }

  method DoP2p(router: Routing.Router, key: string, now: int, later: int, fromPeer: bool, res: Resolution,
               buf: array<byte>)
      returns (peer: Option<nat>, callbacks: nat)
    modifies router, buf
    ensures var asks := Asks(fromPeer, Routing.RefusedAt(old(router.lookupCache), key, now), res);
            if !asks then
              peer == None && callbacks == 0 && buf[..] == old(buf[..]) && router.lookupCache == old(router.lookupCache)
            else
              var end := PeerLoop(res.events, 0, old(buf[..]));
              && buf[..] == end.buf
              && (end.Found? ==>
                    peer == Some(end.at) && callbacks == 0 && router.lookupCache == old(router.lookupCache))
              && (end.Gone? ==> peer == None && callbacks == 1
                                && router.lookupCache == Routing.Remember(old(router.lookupCache), key, later))
  {
    peer, callbacks := None, 0;
    if fromPeer {
      return;
    }
    var refused := router.RefusedFromCache(key, now);
    if refused || res.error {
      return;
    }
    var events := res.events + [TimedOut];
    var n := 0;
    ghost var whole := PeerLoop(res.events, 0, old(buf[..]));
    while true
      invariant n <= |res.events| && callbacks == 0 && peer == None
      invariant router.lookupCache == old(router.lookupCache)
      invariant PeerLoop(res.events, n, buf[..]) == whole
      decreases |events| - n
    {
      match events[n] {
        case TimedOut =>
          router.NegativeCacheCallback(key, later);
          callbacks := callbacks + 1;
          break;
        case ChannelClosed =>
          router.NegativeCacheCallback(key, later);
          callbacks := callbacks + 1;
          break;
        case BadRequest =>
        case Answer(h) =>
          var _, err := PreadOne(h, buf);
          if err == NoError {
            peer := Some(n);
            return;
          }
      }
      n := n + 1;
    }
  }

  /** A lookup, in the terms of the negative cache's own machine. */
  function LookupActions(key: string, wait: nat, fromPeer: bool, refused: bool, res: Resolution,
                         buf: seq<byte>): seq<Routing.Action> {
    if fromPeer then []
    else if refused then [Routing.Start(key)]
    else if res.error then [Routing.Start(key), Routing.Errored(key)]
    else [Routing.Start(key), Routing.Tick(wait),
          if PeerLoop(res.events, 0, buf).Found? then Routing.Found(key) else Routing.Exhausted(key)]
  }

  lemma RunOfThree(s: Routing.State, a: Routing.Action, b: Routing.Action, c: Routing.Action)
    ensures Routing.Run(s, []) == s && Routing.Run(s, [a]) == Routing.Step(s, a)
    ensures Routing.Run(s, [a, b]) == Routing.Step(Routing.Step(s, a), b)
    ensures Routing.Run(s, [a, b, c]) == Routing.Step(Routing.Step(Routing.Step(s, a), b), c)
  {
    assert [a][..0] == [] && [a, b][..1] == [a] && [a, b, c][..2] == [a, b];
    assert Routing.Run(s, [a]) == Routing.Step(s, a);
    assert Routing.Run(s, [a, b]) == Routing.Step(Routing.Step(s, a), b);
  }

  /** What DoP2p does to the router's cache is a run of that machine: a lookup is refused exactly when
      the machine logs a refusal, and a failure is logged exactly when the callback is called. */
  lemma LookupIsRun(s: Routing.State, key: string, wait: nat, fromPeer: bool, res: Resolution, origin: Http,
                    buf: seq<byte>)
    ensures var refused := Routing.RefusedAt(s.expiry, key, s.clock);
            var p := PreadResult(Asks(fromPeer, refused, res), res.events, origin, buf);
            var after := Routing.Run(s, LookupActions(key, wait, fromPeer, refused, res, buf));
            && after.expiry == (if p.callbacks == 1 then Routing.Remember(s.expiry, key, s.clock + wait) else s.expiry)
            && after.pending == s.pending
            && after.log == s.log + (if !fromPeer && refused then [Routing.Refused(key, s.clock)]
                                     else if p.callbacks == 1 then [Routing.Failed(key, s.clock + wait)] else [])
  {
    if fromPeer || Routing.RefusedAt(s.expiry, key, s.clock) || res.error {
      LookupDoesNot(s, key);
    } else {
      LookupEnds(s, key, wait, PeerLoop(res.events, 0, buf).Found?);
    }
  }

  lemma LookupDoesNot(s: Routing.State, key: string)
    ensures Routing.Run(s, []) == s
    ensures Routing.Run(s, [Routing.Start(key)]) == Routing.Step(s, Routing.Start(key))
    ensures !Routing.RefusedAt(s.expiry, key, s.clock) ==>
              Routing.Run(s, [Routing.Start(key), Routing.Errored(key)]) == s
  {
    assert s.pending + multiset{key} - multiset{key} == s.pending;
    RunOfThree(s, Routing.Start(key), Routing.Errored(key), Routing.Errored(key));
  }

  /** The machine after a lookup that was started at `s` and ended after `wait`. */
  function Ended(s: Routing.State, key: string, wait: nat, found: bool): Routing.State {
    var end := s.(clock := s.clock + wait);
    if found then end
    else end.(expiry := Routing.Remember(s.expiry, key, end.clock), log := s.log + [Routing.Failed(key, end.clock)])
  }

  lemma StepsEnd(s: Routing.State, key: string, wait: nat, found: bool)
    requires !Routing.RefusedAt(s.expiry, key, s.clock)
    ensures var s2 := Routing.Step(Routing.Step(s, Routing.Start(key)), Routing.Tick(wait));
            Routing.Step(s2, if found then Routing.Found(key) else Routing.Exhausted(key)) == Ended(s, key, wait, found)
  {
    assert s.pending + multiset{key} - multiset{key} == s.pending;
  }

  lemma LookupEnds(s: Routing.State, key: string, wait: nat, found: bool)
    requires !Routing.RefusedAt(s.expiry, key, s.clock)
    ensures Routing.Run(s, [Routing.Start(key), Routing.Tick(wait),
                            if found then Routing.Found(key) else Routing.Exhausted(key)])
         == Ended(s, key, wait, found)
  {
    StepsEnd(s, key, wait, found);
    RunOfThree(s, Routing.Start(key), Routing.Tick(wait), if found then Routing.Found(key) else Routing.Exhausted(key));
  }

  method PreadRemote(router: Routing.Router, key: string, now: int, later: int, fromPeer: bool, res: Resolution,
                     origin: Http, buf: array<byte>)
      returns (n: int, err: Error, ghost result: Pread)
    modifies router, buf
    ensures result == PreadResult(Asks(fromPeer, Routing.RefusedAt(old(router.lookupCache), key, now), res),
                                  res.events, origin, old(buf[..]))
    ensures buf[..] == result.buf && err == result.err
    ensures err == NoError ==> n == buf.Length
    ensures router.lookupCache == if result.callbacks == 1 then Routing.Remember(old(router.lookupCache), key, later)
                                  else old(router.lookupCache)
  {
    ghost var asks := Asks(fromPeer, Routing.RefusedAt(router.lookupCache, key, now), res);
    result := PreadResult(asks, res.events, origin, buf[..]);
    var peer, callbacks := DoP2p(router, key, now, later, fromPeer, res, buf);
    if peer.Some? {
      return buf.Length, NoError, result;
    }
    n, err := PreadOne(origin, buf);
  }

  /** A lookup for a client, of which no failure is remembered, comes to a peer that fills the buffer. */
  ghost predicate PeerHas(fromPeer: bool, key: string, cache: map<string, int>, res: Resolution, count: nat) {
    !fromPeer && key !in cache && !res.error && exists at :: FirstToFill(res.events, count, at)
  }

  /** Such a lookup comes to none. */
  ghost predicate NoPeerHas(fromPeer: bool, key: string, cache: map<string, int>, res: Resolution, count: nat) {
    !fromPeer && key !in cache && !res.error && forall at :: !FirstToFill(res.events, count, at)
  }

  lemma FetchFacts(asks: bool, events: seq<Event>, origin: Http, count: nat)
    ensures var p := PreadResult(asks, events, origin, Zeros(count));
            && (!asks ==> p.callbacks == 0 && (p.err != Failed ==> Accepted(origin)))
            && (asks && (exists at :: FirstToFill(events, count, at)) ==> p.callbacks == 0 && p.err == NoError)
            && (asks && (forall at :: !FirstToFill(events, count, at)) ==> p.callbacks == 1)
  {
    SingleSource(asks, events, origin, Zeros(count));
  }

  method FetchFile(router: Routing.Router, key: string, now: int, later: int, fromPeer: bool, res: Resolution,
                   origin: Http, count: nat)
      returns (r: Result<seq<byte>>)
    modifies router
    ensures r == Fetched(Asks(fromPeer, Routing.RefusedAt(old(router.lookupCache), key, now), res),
                         res.events, origin, count)
    ensures fromPeer ==> router.lookupCache == old(router.lookupCache) && (r.Ok? ==> Accepted(origin))
    ensures router.lookupCache - {key} == old(router.lookupCache) - {key}
    ensures PeerHas(fromPeer, key, old(router.lookupCache), res, count) ==>
              r.Ok? && router.lookupCache == old(router.lookupCache)
    ensures NoPeerHas(fromPeer, key, old(router.lookupCache), res, count) ==>
              router.lookupCache == old(router.lookupCache)[key := later + 500]
  {
    var d := new byte[count](_ => 0);
    assert d[..] == Zeros(count);
    FetchFacts(Asks(fromPeer, Routing.RefusedAt(router.lookupCache, key, now), res), res.events, origin, count);
    var _, err, _ := PreadRemote(router, key, now, later, fromPeer, res, origin, d);
    if err != NoError && err != EOF {
      return Err;
    }
    return Ok(d[..]);
  }

  /** What FetchFile returns: the buffer, if the read ended well or with EOF. */
  function Fetched(asks: bool, events: seq<Event>, origin: Http, count: nat): (r: Result<seq<byte>>)
    ensures r.Ok? ==> |r.value| == count
  {
    var p := PreadResult(asks, events, origin, Zeros(count));
    if p.err == Failed then Err else Ok(p.buf)
  }

  // ---------------------------------------------------------------- what a reader gets

  /** A server that honours the range sends the wanted bytes in order, perhaps not all of them. */
  predicate Honest(h: Http, want: seq<byte>) { Accepted(h) ==> h.body <= want }

  ghost predicate AllHonest(events: seq<Event>, want: seq<byte>) {
    forall n :: 0 <= n < |events| && events[n].Answer? ==> Honest(events[n].http, want)
  }

  /** The event `at` ends the loop with success, and none before it ends it at all. */
  ghost predicate FirstToFill(events: seq<Event>, n: nat, at: nat) {
    && at < |events| && events[at].Answer? && Fills(events[at].http, n)
    && forall k :: 0 <= k < at ==> events[k].BadRequest? || (events[k].Answer? && !Fills(events[k].http, n))
  }

  lemma {:induction false} LoopFindsFirst(events: seq<Event>, from: nat, buf: seq<byte>)
    requires from <= |events|
    requires forall k :: 0 <= k < from ==> events[k].BadRequest? || (events[k].Answer? && !Fills(events[k].http, |buf|))
    ensures var r := PeerLoop(events, from, buf);
            && (r.Found? ==> FirstToFill(events, |buf|, r.at) && r.buf == events[r.at].http.body[..|buf|])
            && (r.Gone? ==> forall at :: !FirstToFill(events, |buf|, at))
    decreases |events| - from
  {
    if from < |events| && !events[from].TimedOut? && !events[from].ChannelClosed? {
      if events[from].BadRequest? {
        LoopFindsFirst(events, from + 1, buf);
      } else if !Fills(events[from].http, |buf|) {
        LoopFindsFirst(events, from + 1, After(buf, events[from].http));
      }
    }
  }

  /** A read that succeeds has filled the whole buffer from one source: the first peer that could, or
      the origin, which is asked exactly when no peer did. The negative cache is told exactly once,
      when a lookup that was started ended without a peer. */
  lemma SingleSource(asks: bool, events: seq<Event>, origin: Http, buf: seq<byte>)
    ensures var p := PreadResult(asks, events, origin, buf);
            && (p.peer.Some? ==> asks && FirstToFill(events, |buf|, p.peer.value)
                                 && p.err == NoError && p.buf == events[p.peer.value].http.body[..|buf|])
            && (p.origin <==> p.peer.None?)
            && (p.origin <==> !asks || forall at :: !FirstToFill(events, |buf|, at))
            && (p.origin && p.err == NoError ==> Fills(origin, |buf|) && p.buf == origin.body[..|buf|])
            && (p.origin ==> (p.err == NoError <==> Fills(origin, |buf|)))
            && (p.callbacks == if asks && p.origin then 1 else 0)
  {
    LoopFindsFirst(events, 0, buf);
    var p := PreadResult(asks, events, origin, buf);
    if p.peer.Some? { assert FirstToFill(events, |buf|, p.peer.value); }
  }

  /** With honest servers, whatever junk earlier answers left, success means exactly the wanted bytes. */
  lemma PreadExact(asks: bool, events: seq<Event>, origin: Http, buf: seq<byte>, want: seq<byte>)
    requires |buf| == |want| && AllHonest(events, want) && Honest(origin, want)
    ensures PreadResult(asks, events, origin, buf).err == NoError ==> PreadResult(asks, events, origin, buf).buf == want
  {
    SingleSource(asks, events, origin, buf);
  }

  // ---------------------------------------------------------------- the accepted EOF

  /** The longest body any event before the loop gave up brought. */
  function Longest(events: seq<Event>, from: nat, k: nat): (r: nat)
    requires from <= |events|
    ensures r >= k
    decreases |events| - from
  {
    if from == |events| || events[from].TimedOut? || events[from].ChannelClosed? then k
    else if events[from].Answer? && Accepted(events[from].http) then
      Longest(events, from + 1, Max(k, |events[from].http.body|))
    else Longest(events, from + 1, k)
  }

  /** A buffer holding the first `k` wanted bytes and zeros. */
  function Partial(want: seq<byte>, k: nat): (r: seq<byte>)
    requires k <= |want|
    ensures |r| == |want|
  {
    want[..k] + Zeros(|want| - k)
  }

  lemma PrefixOverlay(want: seq<byte>, k: nat, body: seq<byte>)
    requires k <= |want| && body <= want
    ensures Overlay(Partial(want, k), body) == Partial(want, Max(k, |body|))
  {
  }

  lemma {:induction false} LoopLeaves(events: seq<Event>, from: nat, want: seq<byte>, k: nat)
    requires from <= |events| && AllHonest(events, want) && k <= |want|
    requires PeerLoop(events, from, Partial(want, k)).Gone?
    ensures Longest(events, from, k) <= |want|
    ensures PeerLoop(events, from, Partial(want, k)).buf == Partial(want, Longest(events, from, k))
    decreases |events| - from
  {
    if from < |events| && events[from].Answer? && Accepted(events[from].http) {
      var body := events[from].http.body;
      assert Honest(events[from].http, want);
      PrefixOverlay(want, k, body);
      LoopLeaves(events, from + 1, want, Max(k, |body|));
    } else if from < |events| && !events[from].TimedOut? && !events[from].ChannelClosed? {
      LoopLeaves(events, from + 1, want, k);
    }
  }

  /** No peer fills the buffer, and the origin accepts a request for bytes and sends none. */
  ghost predicate EmptyOrigin(asks: bool, events: seq<Event>, origin: Http, count: nat) {
    && count > 0 && Accepted(origin) && origin.body == []
    && (!asks || forall at :: !FirstToFill(events, count, at))
  }

  /** That is exactly when the read ends with EOF. */
  lemma EndsWithEOF(asks: bool, events: seq<Event>, origin: Http, buf: seq<byte>)
    ensures PreadResult(asks, events, origin, buf).err == EOF <==> EmptyOrigin(asks, events, origin, |buf|)
  {
    SingleSource(asks, events, origin, buf);
  }

  /** What is then taken for the chunk: what the peers left, padded with zeros. */
  lemma EmptyOriginLeaves(asks: bool, events: seq<Event>, origin: Http, want: seq<byte>)
    requires AllHonest(events, want) && EmptyOrigin(asks, events, origin, |want|)
    ensures var k := if asks then Longest(events, 0, 0) else 0;
            k <= |want| && Fetched(asks, events, origin, |want|) == Ok(Partial(want, k))
  {
    EndsWithEOF(asks, events, origin, Zeros(|want|));
    assert Partial(want, 0) == Zeros(|want|);
    if asks { LoopLeaves(events, 0, want, 0); }
    PrefixOverlay(want, if asks then Longest(events, 0, 0) else 0, []);
  }

  lemma OtherwiseExact(asks: bool, events: seq<Event>, origin: Http, want: seq<byte>)
    requires AllHonest(events, want) && Honest(origin, want) && !EmptyOrigin(asks, events, origin, |want|)
    ensures var r := Fetched(asks, events, origin, |want|); r.Ok? ==> r == Ok(want)
  {
    PreadExact(asks, events, origin, Zeros(|want|), want);
    EndsWithEOF(asks, events, origin, Zeros(|want|));
  }

  /** FetchFile takes io.EOF for success. It returns the wanted bytes, from honest servers, except in
      one case: no peer fills the buffer, and the origin accepts and sends an empty body. Then what it
      returns is right only if the rest of the chunk is zeros. */
  lemma FetchedExactly(asks: bool, events: seq<Event>, origin: Http, want: seq<byte>)
    requires AllHonest(events, want) && Honest(origin, want)
    ensures var r := Fetched(asks, events, origin, |want|);
            var k := if asks then Longest(events, 0, 0) else 0;
            if EmptyOrigin(asks, events, origin, |want|) then
              && k <= |want| && r == Ok(Partial(want, k))
              && (r == Ok(want) <==> want[k..] == Zeros(|want| - k))
            else r.Ok? ==> r == Ok(want)
  {
    if EmptyOrigin(asks, events, origin, |want|) {
      EmptyOriginLeaves(asks, events, origin, want);
      PartialWhole(want, if asks then Longest(events, 0, 0) else 0);
    } else {
      OtherwiseExact(asks, events, origin, want);
    }
  }

  lemma PartialWhole(want: seq<byte>, k: nat)
    requires k <= |want|
    ensures Partial(want, k) == want <==> want[k..] == Zeros(|want| - k)
  {
  }

  /** Such a case: one peer sends half of the chunk, the origin nothing, and half a chunk of zeros is
      taken for the rest. */
  lemma EmptyOriginExample()
    ensures Fetched(true, [Answer(Response(206, [7]))], Response(206, []), 2) == Ok([7, 0])
    ensures AllHonest([Answer(Response(206, [7]))], [7, 7]) && Honest(Response(206, []), [7, 7])
  {
    var events, want: seq<byte> := [Answer(Response(206, [7]))], [7, 7];
    assert [7] == want[..1];
    FetchedExactly(true, events, Response(206, []), want);
    assert PeerLoop(events, 1, Overlay(Zeros(2), [7])) == Gone(Overlay(Zeros(2), [7]));
    assert Longest(events, 1, 1) == 1;
    assert Partial(want, 1) == [7, 0];
  }
}
