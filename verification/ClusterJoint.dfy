/** The cluster with the concurrent caches inside: every node has the state of its calls of GetOrCreate,
    step by step and interleaved, next to the requests between nodes, the peer loops and the prefetch
    pipelines. The buffer a call writes is what its own fetch brought. */
module ClusterJoint {
  import opened Common
  import opened Items
  import opened Reachability
  import opened Reader
  import opened Cluster
  import CC = ConcurrentCache

  /** The cluster, what the paths on disk stand for, and which path each chunk has. */
  datatype Setup = Setup(cfg: Config, c: CC.Config, ids: CC.Key -> ChunkId, path: ChunkId -> CC.Key)

  ghost predicate Proper(u: Setup) {
    && Sensible(u.cfg)
    && (forall k :: u.path(u.ids(k)) == k)
    && (forall id :: OnGrid(u.cfg, id) ==> u.ids(u.path(id)) == id && u.c.chunk(u.path(id)) == Want(u.cfg, id))
  }

  /** The cluster's own state, each node's cache, and for each of its calls which of the cluster's it is. */
  datatype Joint = Joint(st: State, caches: seq<CC.State>, ds: seq<seq<nat>>)

  datatype JointAction =
    | Outer(a: Action)
    | Inner(n: nat, move: CC.Action)
    | Fetch(n: nat, t: nat, origin: Http)

  /** What a node shows of its cache: the files of the cached items. */
  function Mirror(u: Setup, s: CC.State): map<ChunkId, seq<byte>>
    requires CC.WellFormed(s)
  {
    map id | id in (set k | k in s.entries :: u.ids(k)) && u.path(id) in s.entries
      :: CC.Content(s, s.entries[u.path(id)])
  }

  /** What a call has come to. */
  function CameTo(pc: CC.Pc): Option<Result<seq<byte>>> {
    match pc
    case Returned(result) => Some(Ok(result))
    case Failed => Some(Err)
    case Crashed(_) => Some(Err)
    case _ => None
  }

  function Reflect(u: Setup, st: State, n: nat, s: CC.State): State
    requires n < |st.nodes| && CC.WellFormed(s)
  {
    WithNode(st, n, st.nodes[n].(chunks := Mirror(u, s)))
  }

  function Settle(st: State, d: nat, pc: CC.Pc): State
    requires d < |st.progress|
  {
    WithProgress(st, d, st.progress[d].(result := CameTo(pc)))
  }

  // ---------------------------------------------------------------- steps

  /** Steps of the cluster that are not the business of a cache. */
  predicate IsOuter(a: Action) { !a.Evict? && !a.Land? && !a.Hit? && !a.Fill? && !a.Break? }

  predicate AsksPeers(a: Action) { a.Ask? || a.Answered? || a.Skip? }

  predicate Has(j: Joint, n: nat) {
    n < |j.caches| && n < |j.ds| && n < |j.st.nodes| && CC.WellFormed(j.caches[n])
  }

  /** Call `t` of node `n` is the cluster's call `d`. */
  predicate Is(j: Joint, n: nat, t: nat, d: nat) {
    Has(j, n) && t < |j.ds[n]| && t < |j.caches[n].calls| && j.ds[n][t] == d
  }

  /** Peers are asked for a call while it fetches. */
  ghost predicate InFetch(j: Joint, d: nat) {
    exists n: nat, t: nat :: Is(j, n, t, d) && j.caches[n].calls[t].pc.Fetching?
  }

  /** A step of the cluster that makes a call begins it on its node. */
  ghost function DoOuter(u: Setup, j: Joint, a: Action): Joint
    requires u.cfg.block > 0
  {
    if !IsOuter(a) || (AsksPeers(a) && !InFetch(j, a.c)) then j
    else
      var st', d := Step(u.cfg, j.st, a), |j.st.calls|;
      if d < |st'.calls| && st'.calls[d].session < |j.st.requests|
         && Has(j, j.st.requests[st'.calls[d].session].node) then
        var n := j.st.requests[st'.calls[d].session].node;
        Joint(st', j.caches[n := CC.Step(u.c, j.caches[n], CC.Begin(u.path(st'.calls[d].id)))],
              j.ds[n := j.ds[n] + [d]])
      else j.(st := st')
  }

  /** The node's cache is in state `s` now; call `t` may have come to an end. */
  function Now(u: Setup, j: Joint, n: nat, s: CC.State): Joint
    requires Has(j, n) && CC.WellFormed(s)
  {
    j.(st := Reflect(u, j.st, n, s), caches := j.caches[n := s])
  }

  function Ends(u: Setup, j: Joint, n: nat, s: CC.State, t: nat): Joint
    requires Has(j, n) && CC.WellFormed(s) && t < |s.calls| && t < |j.ds[n]| && j.ds[n][t] < |j.st.progress|
  {
    j.(st := Settle(Reflect(u, j.st, n, s), j.ds[n][t], s.calls[t].pc), caches := j.caches[n := s])
  }

  predicate CanMove(j: Joint, n: nat, t: nat) {
    Has(j, n) && t < |j.caches[n].calls| && t < |j.ds[n]| && j.ds[n][t] < |j.st.progress|
  }

  /** A step of a node's cache, other than a fetch. */
  function DoInner(u: Setup, j: Joint, n: nat, a: CC.Action): Joint {
    if !Has(j, n) then j
    else
      match a
      case Begin(_) => j
      case Evict(_) => Now(u, j, n, CC.Step(u.c, j.caches[n], a))
      case Drop(_) => Now(u, j, n, CC.Step(u.c, j.caches[n], a))
      case Move(t, good) =>
        if CanMove(j, n, t) && !j.caches[n].calls[t].pc.Fetching? then
          Ends(u, j, n, CC.StepCall(u.c, j.caches[n], t, good), t)
        else j
  }

  /** The state after a fetch: its buffer is to be written, or the call fails. */
  function Brought(u: Setup, s: CC.State, t: nat, r: Result<seq<byte>>): (s': CC.State)
    requires CC.WellFormed(s) && t < |s.calls| && s.calls[t].pc.Fetching?
    ensures CC.WellFormed(s') && |s'.calls| == |s.calls|
  {
    match r
    case Ok(buf) => CC.Goto(s, t, CC.Truncating(s.calls[t].pc.item, buf))
    case Err => CC.StepFetching(u.c, s, t, false)
  }

  predicate CanFetch(u: Setup, j: Joint, n: nat, t: nat, origin: Http) {
    && CanMove(j, n, t) && j.caches[n].calls[t].pc.Fetching?
    && var d := j.ds[n][t];
       && d < |j.st.calls| && j.st.progress[d].waiting.None? && j.st.calls[d].count >= 0
       && j.st.calls[d].id.name in u.cfg.blobs
       && OriginHonours(u.cfg.blobs[j.st.calls[d].id.name], j.st.calls[d].id.off, j.st.calls[d].count, origin)
  }

  /** A fetch ends with what the peers have answered so far and the origin answers now. */
  function DoFetch(u: Setup, j: Joint, n: nat, t: nat, origin: Http): Joint {
    if CanFetch(u, j, n, t, origin) then
      var d := j.ds[n][t];
      var r := Fetched(j.st.calls[d].asks, j.st.progress[d].events, origin, j.st.calls[d].count);
      Ends(u, j, n, Brought(u, j.caches[n], t, r), t)
    else j
  }

  ghost function JointStep(u: Setup, j: Joint, a: JointAction): Joint
    requires u.cfg.block > 0
  {
    match a
    case Outer(a) => DoOuter(u, j, a)
    case Inner(n, move) => DoInner(u, j, n, move)
    case Fetch(n, t, origin) => DoFetch(u, j, n, t, origin)
  }

  // ---------------------------------------------------------------- runs

  ghost function JointRun(u: Setup, j: Joint, acts: seq<JointAction>): Joint
    requires u.cfg.block > 0
    decreases |acts|
  {
    if acts == [] then j else JointStep(u, JointRun(u, j, acts[..|acts| - 1]), acts[|acts| - 1])
  }

  /** Nodes that have just started, with whatever is on their disks. */
  function JointInit(disks: seq<CC.State>): Joint {
    Joint(Init(|disks|), disks, seq(|disks|, _ => []))
  }

  /** The step opens again a file in use that is not yet whole. */
  predicate JointCareless(u: Setup, j: Joint, a: JointAction) {
    a.Inner? && Has(j, a.n) && CC.Careless(u.c, j.caches[a.n], a.move)
  }

  ghost function JointCarelessAfter(u: Setup, j: Joint): (seq<JointAction>, JointAction) -> bool
    requires u.cfg.block > 0
  {
    (before, a) => JointCareless(u, JointRun(u, j, before), a)
  }

  ghost predicate JointCareful(u: Setup, j: Joint, acts: seq<JointAction>)
    requires u.cfg.block > 0
  {
    !Ever(JointCarelessAfter(u, j), acts)
  }
}
