/** pkg/discovery/routing/router.go: who is asked for a chunk, and for how long a failed lookup is
    remembered. Time is in milliseconds. */
module Routing {
  import opened Common

  const NEG_CACHE_TTL: int := 500

  // ---------------------------------------------------------------- which providers become peers

  /** A provider record: the node, and for each of its addresses the IPv4 part if it has one. */
  datatype Provider = Provider(id: nat, addrs: seq<Option<string>>)

  datatype Peer = Peer(id: nat, host: string)

  predicate Usable(p: Provider, self: nat, allowSelf: bool) {
    (allowSelf || p.id != self) && |p.addrs| == 1 && p.addrs[0].Some?
  }

  function PeerOf(p: Provider): Peer
    requires |p.addrs| == 1 && p.addrs[0].Some?
  {
    Peer(p.id, p.addrs[0].value)
  }

  /** The usable providers, in order. */
  function Peers(providers: seq<Provider>, self: nat, allowSelf: bool): seq<Peer> {
    if providers == [] then []
    else
      var rest := Peers(providers[..|providers| - 1], self, allowSelf);
      var p := providers[|providers| - 1];
      if Usable(p, self, allowSelf) then rest + [PeerOf(p)] else rest
  }

  method Resolve(providers: seq<Provider>, self: nat, allowSelf: bool) returns (peers: seq<Peer>)
    ensures peers == Peers(providers, self, allowSelf)
  {
    peers := [];
    var n := 0;
    while n < |providers|
      invariant n <= |providers| && peers == Peers(providers[..n], self, allowSelf)
    {
      var info := providers[n];
      assert providers[..n + 1][..n] == providers[..n];
      n := n + 1;
      if !allowSelf && info.id == self {
        continue;
      }
      if |info.addrs| != 1 {
        continue;
      }
      if info.addrs[0].None? {
        continue;
      }
      peers := peers + [Peer(info.id, info.addrs[0].value)];
    }
    assert providers[..n] == providers;
  }

  /** Exactly the providers with one address, an IPv4 one, are asked; a node never asks itself, unless it
      is allowed to. */
  lemma {:induction false} PeersExactly(providers: seq<Provider>, self: nat, allowSelf: bool, peer: Peer)
    ensures peer in Peers(providers, self, allowSelf) <==>
            Provider(peer.id, [Some(peer.host)]) in providers && (allowSelf || peer.id != self)
    decreases |providers|
  {
    if providers != [] {
      var front, last := providers[..|providers| - 1], providers[|providers| - 1];
      PeersExactly(front, self, allowSelf, peer);
      assert providers == front + [last];
      if |last.addrs| == 1 { assert last.addrs == [last.addrs[0]]; }
    }
  }

  // ---------------------------------------------------------------- the negative cache

  /** Until when each key is refused. */
  type LookupCache = map<string, int>

  predicate RefusedAt(cache: LookupCache, key: string, now: int) { key in cache && now <= cache[key] }

  function Remember(cache: LookupCache, key: string, now: int): LookupCache { cache[key := now + NEG_CACHE_TTL] }

  class Router {
    var lookupCache: LookupCache

    constructor ()
      ensures lookupCache == map[]
    {
      lookupCache := map[];
    }

    /** Lines 160-163: whether the lookup is refused from the cache. */
    method RefusedFromCache(key: string, now: int) returns (refused: bool)
      ensures refused == RefusedAt(lookupCache, key, now)
    {
      refused := key in lookupCache && now <= lookupCache[key];
    }

    /** The callback of lines 166-168. */
    method NegativeCacheCallback(key: string, now: int)
      modifies this
      ensures lookupCache == Remember(old(lookupCache), key, now)
    {
      lookupCache := lookupCache[key := now + NEG_CACHE_TTL];
    }
  }

  // ---------------------------------------------------------------- the negative cache over time

  /** A lookup that ended without success, or one that was refused, and when. */
  datatype Entry = Failed(key: string, at: int) | Refused(key: string, at: int)

  datatype State = State(
    expiry: LookupCache,
    clock: int,
    pending: multiset<string>,    // lookups started and not finished
    log: seq<Entry>)              // failures and refusals, in the order they happened

  /** A lookup starts, ends with a peer, ends without one, or with an error that calls nothing back;
      time passes; the foreign cache forgets. */
  datatype Action = Start(key: string) | Found(key: string) | Exhausted(key: string) | Errored(key: string)
                  | Tick(ms: nat) | Forget(key: string)

  function Step(s: State, a: Action): State {
    match a
    case Start(k) =>
      if RefusedAt(s.expiry, k, s.clock) then s.(log := s.log + [Refused(k, s.clock)])
      else s.(pending := s.pending + multiset{k})
    case Found(k) => s.(pending := s.pending - multiset{k})
    case Errored(k) => s.(pending := s.pending - multiset{k})
    case Exhausted(k) =>
      if k in s.pending then
        s.(pending := s.pending - multiset{k}, log := s.log + [Failed(k, s.clock)],
           expiry := Remember(s.expiry, k, s.clock))
      else s
    case Tick(d) => s.(clock := s.clock + d)
    case Forget(k) => s.(expiry := s.expiry - {k})
  }

  function Run(s: State, acts: seq<Action>): State
    decreases |acts|
  {
    if acts == [] then s else Step(Run(s, acts[..|acts| - 1]), acts[|acts| - 1])
  }

  const INITIAL: State := State(map[], 0, multiset{}, [])

  /** A refusal comes after the failure it is due to, and within the time to live. */
  predicate Explains(log: seq<Entry>, n: nat, m: nat)
    requires n < |log| && m < |log|
  {
    n < m && log[n].Failed? && log[n].key == log[m].key && log[n].at <= log[m].at <= log[n].at + NEG_CACHE_TTL
  }

  ghost predicate Explained(log: seq<Entry>, m: nat)
    requires m < |log|
  {
    log[m].Refused? ==> exists n: nat :: n < |log| && Explains(log, n, m)
  }

  /** Entry `n` is the failure that the cache remembers for `k`. */
  predicate Recalls(s: State, k: string, n: nat)
    requires k in s.expiry && n < |s.log|
  {
    s.log[n].Failed? && s.log[n].key == k && s.log[n].at <= s.clock && s.expiry[k] == s.log[n].at + NEG_CACHE_TTL
  }

  ghost predicate Recalled(s: State, k: string)
    requires k in s.expiry
  {
    exists n: nat :: n < |s.log| && Recalls(s, k, n)
  }

  ghost predicate Inv(s: State) {
    && (forall k :: k in s.expiry ==> Recalled(s, k))
    && (forall m: nat :: m < |s.log| ==> Explained(s.log, m))
  }

  lemma StepRecalls(s: State, a: Action, k: string)
    requires k in Step(s, a).expiry && (k in s.expiry ==> Recalled(s, k))
    ensures Recalled(Step(s, a), k)
  {
    var s' := Step(s, a);
    if a == Exhausted(k) && k in s.pending {
      assert Recalls(s', k, |s.log|);
    } else {
      var n: nat :| n < |s.log| && Recalls(s, k, n);
      assert Recalls(s', k, n);
    }
  }

  lemma StepExplains(s: State, a: Action, m: nat)
    requires Inv(s) && m < |Step(s, a).log|
    ensures Explained(Step(s, a).log, m)
  {
    var log := Step(s, a).log;
    if m < |s.log| {
      assert Explained(s.log, m);
      if log[m].Refused? {
        var n: nat :| n < |s.log| && Explains(s.log, n, m);
        assert Explains(log, n, m);
      }
    } else if log[m].Refused? {
      var n: nat :| n < |s.log| && Recalls(s, a.key, n);
      assert Explains(log, n, m);
    }
  }

  lemma {:induction false} RunKeepsInv(acts: seq<Action>)
    ensures Inv(Run(INITIAL, acts))
    decreases |acts|
  {
    if acts != [] {
      var s, a := Run(INITIAL, acts[..|acts| - 1]), acts[|acts| - 1];
      RunKeepsInv(acts[..|acts| - 1]);
      forall k | k in Step(s, a).expiry ensures Recalled(Step(s, a), k) { StepRecalls(s, a, k); }
      forall m: nat | m < |Step(s, a).log| ensures Explained(Step(s, a).log, m) { StepExplains(s, a, m); }
    }
  }

  lemma FailureComes(s: State, a: Action, n: nat)
    requires n < |Step(s, a).log| && Step(s, a).log[n].Failed?
    ensures if n < |s.log| then s.log[n] == Step(s, a).log[n] else a == Exhausted(Step(s, a).log[n].key)
  {
  }

  lemma {:induction false} FailuresCome(acts: seq<Action>, n: nat)
    requires n < |Run(INITIAL, acts).log| && Run(INITIAL, acts).log[n].Failed?
    ensures Exhausted(Run(INITIAL, acts).log[n].key) in acts
    decreases |acts|
  {
    if acts != [] {
      var m := |acts| - 1;
      var s := Run(INITIAL, acts[..m]);
      FailureComes(s, acts[m], n);
      if n < |s.log| {
        FailuresCome(acts[..m], n);
        var f := Exhausted(s.log[n].key);
        assert f in acts[..m];
      }
    }
  }

  /** In every timed run a lookup is refused only after an earlier lookup of the same key ended without
      success, no longer than the time to live before; and a key none of whose lookups ended that way
      is never refused. */
  lemma RefusalsExplained(acts: seq<Action>, m: nat)
    requires m < |Run(INITIAL, acts).log| && Run(INITIAL, acts).log[m].Refused?
    ensures exists n: nat :: n < |Run(INITIAL, acts).log| && Explains(Run(INITIAL, acts).log, n, m)
    ensures Exhausted(Run(INITIAL, acts).log[m].key) in acts
  {
    RunKeepsInv(acts);
    var log := Run(INITIAL, acts).log;
    assert Explained(log, m);
    var n: nat :| n < |log| && Explains(log, n, m);
    FailuresCome(acts, n);
  }

  // ---------------------------------------------------------------- failures are remembered

  function Ticks(acts: seq<Action>): (ms: nat)
    decreases |acts|
  {
    if acts == [] then 0
    else Ticks(acts[..|acts| - 1]) + (if acts[|acts| - 1].Tick? then acts[|acts| - 1].ms else 0)
  }

  /** `k` is refused until `until`, at least, and no longer than a failure now would make it. */
  predicate RefusedUntil(s: State, k: string, until: int) {
    k in s.expiry && until <= s.expiry[k] && until <= s.clock + 500
  }

  lemma StepRemembers(s: State, a: Action, k: string, until: int)
    requires RefusedUntil(s, k, until) && a != Forget(k)
    ensures RefusedUntil(Step(s, a), k, until)
    ensures Step(s, a).clock == s.clock + if a.Tick? then a.ms else 0
  {
  }

  lemma {:induction false} RunRemembers(s: State, acts: seq<Action>, k: string, until: int)
    requires RefusedUntil(s, k, until) && Forget(k) !in acts
    ensures RefusedUntil(Run(s, acts), k, until) && Run(s, acts).clock == s.clock + Ticks(acts)
    decreases |acts|
  {
    if acts != [] {
      var m := |acts| - 1;
      RunRemembers(s, acts[..m], k, until);
      StepRemembers(Run(s, acts[..m]), acts[m], k, until);
    }
  }

  /** The other half: for half a second after a lookup of `k` has ended without success, whatever happens,
      unless the foreign cache forgets, a lookup of `k` is refused, and none is started. */
  lemma FailuresAreRemembered(s: State, k: string, acts: seq<Action>)
    requires k in s.pending && Forget(k) !in acts && Ticks(acts) <= 500
    ensures var e := Run(Step(s, Exhausted(k)), acts);
            Step(e, Start(k)) == e.(log := e.log + [Refused(k, e.clock)])
  {
    RunRemembers(Step(s, Exhausted(k)), acts, k, s.clock + 500);
  }

  /** And a lookup that is not refused is started. */
  lemma OthersAreStarted(s: State, k: string)
    requires Step(s, Start(k)).log == s.log
    ensures Step(s, Start(k)) == s.(pending := s.pending + multiset{k})
  {
  }
}
