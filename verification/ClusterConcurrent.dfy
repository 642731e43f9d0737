/** The joint machine against the cluster's: whatever careful run the one makes, the cluster's part of
    its state is one that the other can come to. So everything that holds of every run of the cluster,
    in which a call of GetOrCreate is a single step, holds of the interleaved calls too. */
module ClusterConcurrent {
  import opened Common
  import opened Items
  import opened Reachability
  import opened Reader
  import opened Cluster
  import opened ClusterJoint
  import ClusterExact
  import ClusterPrefetch
  import ClusterServes
  import ClusterTheorems
  import Keys
  import Segments
  import CC = ConcurrentCache
  import CE = ConcurrentExact
  import CL = ConcurrentLocks

  // ---------------------------------------------------------------- mirrors

  lemma MirrorShows(u: Setup, s: CC.State, k: CC.Key)
    requires Proper(u) && CC.WellFormed(s) && k in s.entries
    ensures u.ids(k) in Mirror(u, s) && Mirror(u, s)[u.ids(k)] == CC.Content(s, s.entries[k])
  {
    assert u.path(u.ids(k)) == k;
  }

  lemma MirrorHolds(u: Setup, s: CC.State, id: ChunkId)
    requires Proper(u) && CC.WellFormed(s) && id in Mirror(u, s)
    ensures u.path(id) in s.entries && u.ids(u.path(id)) == id
  {
    var k :| k in s.entries && u.ids(k) == id;
    assert u.path(u.ids(k)) == k;
  }

  /** The same items cached, with the same in them. */
  lemma MirrorSame(u: Setup, s: CC.State, s': CC.State)
    requires Proper(u) && CC.WellFormed(s) && CC.WellFormed(s') && s'.entries == s.entries
    requires forall k :: k in s.entries ==> CC.Content(s', s.entries[k]) == CC.Content(s, s.entries[k])
    ensures Mirror(u, s') == Mirror(u, s)
  {
  }

  /** Key `k` now has `content`, and the others what they had. */
  lemma MirrorPut(u: Setup, s: CC.State, s': CC.State, k: CC.Key, content: seq<byte>)
    requires Proper(u) && CC.WellFormed(s) && CC.WellFormed(s') && s'.entries.Keys == s.entries.Keys + {k}
    requires CC.Content(s', s'.entries[k]) == content
    requires forall l :: l in s.entries && l != k ==> CC.Content(s', s'.entries[l]) == CC.Content(s, s.entries[l])
    ensures Mirror(u, s') == Mirror(u, s)[u.ids(k) := content]
  {
    var m, m' := Mirror(u, s), Mirror(u, s');
    MirrorShows(u, s', k);
    forall id | id in m' ensures id in m[u.ids(k) := content] && m[u.ids(k) := content][id] == m'[id] {
      MirrorHolds(u, s', id);
      var l := u.path(id);
      MirrorShows(u, s', l);
      if l != k { MirrorShows(u, s, l); }
    }
    forall id | id in m[u.ids(k) := content] ensures id in m' {
      if id != u.ids(k) {
        MirrorHolds(u, s, id);
        MirrorShows(u, s', u.path(id));
      }
    }
  }

  lemma CutShows(u: Setup, s: CC.State, s': CC.State, k: CC.Key, id: ChunkId)
    requires Proper(u) && CC.WellFormed(s) && CC.WellFormed(s') && s'.entries == s.entries - {k}
    requires forall l :: l in s'.entries ==> CC.Content(s', s.entries[l]) == CC.Content(s, s.entries[l])
    requires id in Mirror(u, s')
    ensures id in Mirror(u, s) && id != u.ids(k) && Mirror(u, s')[id] == Mirror(u, s)[id]
  {
    MirrorHolds(u, s', id);
    MirrorShows(u, s', u.path(id));
    MirrorShows(u, s, u.path(id));
    assert u.path(u.ids(k)) == k;
  }

  lemma MirrorCut(u: Setup, s: CC.State, s': CC.State, k: CC.Key)
    requires Proper(u) && CC.WellFormed(s) && CC.WellFormed(s') && s'.entries == s.entries - {k}
    requires forall l :: l in s'.entries ==> CC.Content(s', s.entries[l]) == CC.Content(s, s.entries[l])
    ensures Mirror(u, s') == Mirror(u, s) - {u.ids(k)}
  {
    var m, m' := Mirror(u, s), Mirror(u, s');
    forall id | id in m' ensures id in m && id != u.ids(k) && m'[id] == m[id] { CutShows(u, s, s', k, id); }
    forall id | id in m && id != u.ids(k) ensures id in m' { CutKeeps(u, s, s', k, id); }
    MapCut(m, m', u.ids(k));
  }

  lemma CutKeeps(u: Setup, s: CC.State, s': CC.State, k: CC.Key, id: ChunkId)
    requires Proper(u) && CC.WellFormed(s) && CC.WellFormed(s') && s'.entries == s.entries - {k}
    requires id in Mirror(u, s) && id != u.ids(k)
    ensures id in Mirror(u, s')
  {
    MirrorHolds(u, s, id);
    MirrorShows(u, s', u.path(id));
  }

  lemma MapCut<K, V>(m: map<K, V>, m': map<K, V>, x: K)
    requires forall k :: k in m' ==> k in m && k != x && m'[k] == m[k]
    requires forall k :: k in m && k != x ==> k in m'
    ensures m' == m - {x}
  {
  }

  // ---------------------------------------------------------------- the cluster's steps

  lemma ComesNowhere(cfg: Config, st: State)
    requires cfg.block > 0
    ensures Comes(cfg, st, st)
  {
    Stays(StepsWhere(cfg, Any), st);
  }

  lemma ComesOnce(cfg: Config, st: State, a: Action)
    requires cfg.block > 0
    ensures Comes(cfg, st, Step(cfg, st, a))
  {
    StepGoes(cfg, Any, st, a);
  }

  /** A cached file changes, or is inserted: the cluster sees it land. */
  lemma Lands(cfg: Config, n: nat, st: State, id: ChunkId, content: seq<byte>)
    requires cfg.block > 0 && n < |st.nodes| && OnGrid(cfg, id)
    requires |content| == |Want(cfg, id)| ==> content == Want(cfg, id)
    ensures Comes(cfg, st, WithNode(st, n, st.nodes[n].(chunks := st.nodes[n].chunks[id := content])))
  {
    ComesOnce(cfg, st, Land(n, id, content));
  }

  lemma Evicts(cfg: Config, n: nat, st: State, id: ChunkId)
    requires cfg.block > 0 && n < |st.nodes|
    ensures Comes(cfg, st, WithNode(st, n, st.nodes[n].(chunks := st.nodes[n].chunks - {id})))
  {
    ComesOnce(cfg, st, Evict(n, id));
  }

  /** Call `d` waits for no peer and has not returned; it is for a whole chunk. */
  ghost predicate Ready(cfg: Config, st: State, d: nat) {
    && Active(st, d) && st.progress[d].waiting.None?
    && OnGrid(cfg, st.calls[d].id) && st.calls[d].count == |Want(cfg, st.calls[d].id)|
    && AllHonest(st.progress[d].events, Want(cfg, st.calls[d].id))
  }

  /** A call can return its chunk, whatever its peers have answered, if they were honest. */
  lemma CanReturn(cfg: Config, st: State, d: nat)
    requires cfg.block > 0 && Ready(cfg, st, d)
    ensures Comes(cfg, st, WithProgress(st, d, st.progress[d].(result := Some(Ok(Want(cfg, st.calls[d].id))))))
  {
    var want := Want(cfg, st.calls[d].id);
    ClusterExact.OriginServes(st.calls[d].asks, st.progress[d].events, want);
    ComesOnce(cfg, st, Fill(d, Response(206, want), false));
  }

  lemma CanFail(cfg: Config, st: State, d: nat)
    requires cfg.block > 0 && Ready(cfg, st, d)
    ensures Comes(cfg, st, WithProgress(st, d, st.progress[d].(result := Some(Err))))
  {
    ComesOnce(cfg, st, Break(d));
  }

  // ---------------------------------------------------------------- the steps of a call

  /** Call `t` of the cache `s` of node `n` is the cluster's call `d`, and both are under way. */
  ghost predicate Under(u: Setup, st: State, n: nat, s: CC.State, t: nat, d: nat) {
    && n < |st.nodes| && CC.WellFormed(s) && t < |s.calls| && st.nodes[n].chunks == Mirror(u, s)
    && Ready(u.cfg, st, d) && CameTo(s.calls[t].pc) == None
    && u.ids(s.calls[t].key) == st.calls[d].id && u.c.chunk(s.calls[t].key) == Want(u.cfg, st.calls[d].id)
  }

  /** The cluster's state after a step of that call. */
  function After(u: Setup, st: State, n: nat, s: CC.State, t: nat, d: nat): State
    requires n < |st.nodes| && CC.WellFormed(s) && t < |s.calls| && d < |st.progress|
  {
    Settle(Reflect(u, st, n, s), d, s.calls[t].pc)
  }

  /** The cluster can come to where a step of that call to `s` takes it. */
  ghost predicate Follows(u: Setup, st: State, n: nat, s: CC.State, t: nat, d: nat) {
    && u.cfg.block > 0 && n < |st.nodes| && CC.WellFormed(s) && t < |s.calls| && d < |st.progress|
    && Comes(u.cfg, st, After(u, st, n, s, t, d))
  }

  /** A step that moves no bytes: at most the outcome of the call is new. */
  lemma MereComes(u: Setup, st: State, n: nat, s: CC.State, s': CC.State, t: nat, d: nat)
    requires Proper(u) && Under(u, st, n, s, t, d) && CC.WellFormed(s') && CE.Mere(u.c, s, s', t)
    ensures Follows(u, st, n, s', t, d)
  {
    MirrorSame(u, s, s');
    assert Reflect(u, st, n, s') == st;
    match CameTo(s'.calls[t].pc)
    case None =>
      ComesNowhere(u.cfg, st);
      assert Settle(st, d, s'.calls[t].pc) == st;
    case Some(Ok(result)) => CanReturn(u.cfg, st, d);
    case Some(Err) => CanFail(u.cfg, st, d);
  }

  /** What is cached is as it was, and the call goes on. */
  lemma StillComes(u: Setup, st: State, n: nat, s': CC.State, t: nat, d: nat)
    requires u.cfg.block > 0 && n < |st.nodes| && CC.WellFormed(s') && t < |s'.calls| && Ready(u.cfg, st, d)
    requires CameTo(s'.calls[t].pc) == None && st.nodes[n].chunks == Mirror(u, s')
    ensures Follows(u, st, n, s', t, d)
  {
    assert After(u, st, n, s', t, d) == st;
    ComesNowhere(u.cfg, st);
  }

  /** The cached content of the call's key is `content` now, and the call goes on. */
  lemma PutComes(u: Setup, st: State, n: nat, s': CC.State, t: nat, d: nat, content: seq<byte>)
    requires u.cfg.block > 0 && n < |st.nodes| && CC.WellFormed(s') && t < |s'.calls| && Ready(u.cfg, st, d)
    requires CameTo(s'.calls[t].pc) == None && Mirror(u, s') == st.nodes[n].chunks[st.calls[d].id := content]
    requires |content| == |Want(u.cfg, st.calls[d].id)| ==> content == Want(u.cfg, st.calls[d].id)
    ensures Follows(u, st, n, s', t, d)
  {
    Lands(u.cfg, n, st, st.calls[d].id, content);
    var st1 := Reflect(u, st, n, s');
    assert Settle(st1, d, s'.calls[t].pc) == st1;
  }

  lemma OpenedComes(u: Setup, st: State, n: nat, s: CC.State, t: nat, d: nat)
    requires Proper(u) && Under(u, st, n, s, t, d) && s.calls[t].pc.Opening?
    ensures Follows(u, st, n, CC.StepOpening(s, t, true), t, d)
  {
    MirrorSame(u, s, CC.StepOpening(s, t, true));
    StillComes(u, st, n, CC.StepOpening(s, t, true), t, d);
  }

  lemma OpeningComes(u: Setup, st: State, n: nat, s: CC.State, t: nat, d: nat)
    requires Proper(u) && Under(u, st, n, s, t, d) && s.calls[t].pc.Opening?
    ensures Follows(u, st, n, CC.StepCall(u.c, s, t, true), t, d)
  {
    assert CC.StepCall(u.c, s, t, true) == CC.StepOpening(s, t, true);
    OpenedComes(u, st, n, s, t, d);
  }

  lemma InsertingComes(u: Setup, st: State, n: nat, s: CC.State, t: nat, d: nat)
    requires Proper(u) && Under(u, st, n, s, t, d) && CE.Names(s) && CE.FullIsExact(u.c, s) && s.calls[t].pc.Inserting?
    ensures Follows(u, st, n, CC.StepCall(u.c, s, t, true), t, d)
  {
    var s', content := CC.StepInserting(s, t, true), CC.Content(s, s.calls[t].pc.item);
    MirrorPut(u, s, s', s.calls[t].key, content);
    PutComes(u, st, n, s', t, d, content);
  }

  /** A writer has changed its file to `content`. */
  ghost predicate Rewritten(c: CC.Config, s: CC.State, s': CC.State, t: nat, content: seq<byte>)
    requires CC.WellFormed(s) && t < |s.calls| && CC.HasItem(s.calls[t].pc)
  {
    var i := s.calls[t].pc.item;
    && s'.inodes == CC.WithContent(s, s.items[i].inode, content).inodes && s'.entries == s.entries
    && |s'.items| == |s.items| && (forall l :: 0 <= l < |s.items| ==> s'.items[l].inode == s.items[l].inode)
    && (content == CC.Content(s, i) || !CE.Whole(c, s, i))
  }

  lemma OthersKeepContent(c: CC.Config, s: CC.State, s': CC.State, t: nat, content: seq<byte>, k: CC.Key)
    requires CC.WellFormed(s) && CC.WellFormed(s') && CE.Alone(c, s) && t < |s.calls| && CC.HasItem(s.calls[t].pc)
    requires CE.Names(s) && Rewritten(c, s, s', t, content) && k in s.entries && s.entries[k] != s.calls[t].pc.item
    ensures CC.Content(s', s.entries[k]) == CC.Content(s, s.entries[k])
  {
    var i := s.calls[t].pc.item;
    assert CE.Uses(s, t, i) && CE.Live(s, i);
    assert CE.Cached(s, s.entries[k]) && CE.Live(s, s.entries[k]);
  }

  /** The cached content changes with the file exactly if the writer's item is cached. */
  lemma RewriteComes(u: Setup, st: State, n: nat, s: CC.State, s': CC.State, t: nat, d: nat, content: seq<byte>)
    requires Proper(u) && Under(u, st, n, s, t, d) && CE.Names(s) && CE.Alone(u.c, s) && CC.HasItem(s.calls[t].pc)
    requires CC.WellFormed(s') && Rewritten(u.c, s, s', t, content) && t < |s'.calls| && CameTo(s'.calls[t].pc) == None
    requires |content| == |u.c.chunk(s.calls[t].key)| ==> content == u.c.chunk(s.calls[t].key)
    ensures Follows(u, st, n, s', t, d)
  {
    var i, k := s.calls[t].pc.item, s.calls[t].key;
    forall l | l in s.entries && s.entries[l] != i ensures CC.Content(s', s.entries[l]) == CC.Content(s, s.entries[l]) {
      OthersKeepContent(u.c, s, s', t, content, l);
    }
    if CE.Cached(s, i) {
      MirrorPut(u, s, s', k, content);
      PutComes(u, st, n, s', t, d, content);
    } else {
      MirrorSame(u, s, s');
      StillComes(u, st, n, s', t, d);
    }
  }

  lemma TruncatingComes(u: Setup, st: State, n: nat, s: CC.State, t: nat, d: nat)
    requires Proper(u) && Under(u, st, n, s, t, d) && CE.Inv(u.c, s) && s.calls[t].pc.Truncating?
    ensures Follows(u, st, n, CC.StepCall(u.c, s, t, true), t, d)
  {
    assert CE.CallGood(u.c, s, t);
    assert u.c.chunk(s.calls[t].key) != [];
    RewriteComes(u, st, n, s, CC.StepTruncating(s, t, true), t, d, []);
  }

  lemma WritingComes(u: Setup, st: State, n: nat, s: CC.State, t: nat, d: nat)
    requires Proper(u) && Under(u, st, n, s, t, d) && CE.Inv(u.c, s) && s.calls[t].pc.Writing?
    ensures Follows(u, st, n, CC.StepCall(u.c, s, t, true), t, d)
  {
    assert CE.CallGood(u.c, s, t);
    var buf := s.calls[t].pc.buf;
    assert WriteAt([], 0, buf) == buf;
    RewriteComes(u, st, n, s, CC.StepWriting(u.c, s, t, true), t, d, buf);
  }

  /** The step is one of those that move bytes. */
  predicate MovesBytes(pc: CC.Pc, good: bool) {
    good && (pc.Opening? || pc.Inserting? || pc.Truncating? || pc.Writing?)
  }

  lemma ByteMoveComes(u: Setup, st: State, n: nat, s: CC.State, t: nat, d: nat)
    requires Proper(u) && Under(u, st, n, s, t, d) && CE.Inv(u.c, s) && MovesBytes(s.calls[t].pc, true)
    ensures Follows(u, st, n, CC.StepCall(u.c, s, t, true), t, d)
  {
    match s.calls[t].pc
    case Opening => OpeningComes(u, st, n, s, t, d);
    case Inserting(_) => InsertingComes(u, st, n, s, t, d);
    case Truncating(_, _) => TruncatingComes(u, st, n, s, t, d);
    case Writing(_, _) => WritingComes(u, st, n, s, t, d);
  }

  lemma IsMere(c: CC.Config, s: CC.State, t: nat, good: bool)
    requires CE.Inv(c, s) && t < |s.calls| && !CC.Finished(s.calls[t].pc) && !MovesBytes(s.calls[t].pc, good)
    ensures CE.Mere(c, s, CC.StepCall(c, s, t, good), t)
  {
    assert CE.CallGood(c, s, t);
    if CE.AtEntry(s.calls[t].pc, good) { CE.EntryMoves(c, s, t, good); } else { CE.SectionMoves(c, s, t, good); }
  }

  /** Every step of a call under way. */
  lemma MoveComes(u: Setup, st: State, n: nat, s: CC.State, t: nat, d: nat, good: bool)
    requires Proper(u) && Under(u, st, n, s, t, d) && CE.Inv(u.c, s)
    ensures Follows(u, st, n, CC.StepCall(u.c, s, t, good), t, d)
  {
    if MovesBytes(s.calls[t].pc, good) {
      ByteMoveComes(u, st, n, s, t, d);
    } else {
      IsMere(u.c, s, t, good);
      MereComes(u, st, n, s, CC.StepCall(u.c, s, t, good), t, d);
    }
  }

  /** What a fetch brings is the chunk, so the joint machine's fetch is the concurrent machine's. */
  lemma BroughtIsStep(u: Setup, st: State, s: CC.State, t: nat, d: nat, origin: Http)
    requires Proper(u) && CC.WellFormed(s) && t < |s.calls| && s.calls[t].pc.Fetching? && Ready(u.cfg, st, d)
    requires u.c.chunk(s.calls[t].key) == Want(u.cfg, st.calls[d].id)
    requires OriginHonours(u.cfg.blobs[st.calls[d].id.name], st.calls[d].id.off, st.calls[d].count, origin)
    ensures var r := Fetched(st.calls[d].asks, st.progress[d].events, origin, st.calls[d].count);
            Brought(u, s, t, r) == CC.StepCall(u.c, s, t, r.Ok?)
  {
    ClusterExact.FillExact(u.cfg, st.calls[d], st.progress[d].events, origin);
  }

  // ---------------------------------------------------------------- the invariant

  ghost predicate CallMatched(u: Setup, j: Joint, n: nat, t: nat)
    requires n < |j.caches| && n < |j.ds| && t < |j.ds[n]| && t < |j.caches[n].calls|
  {
    var d, call := j.ds[n][t], j.caches[n].calls[t];
    && d < |j.st.calls| && d < |j.st.progress|
    && j.st.calls[d].session < |j.st.requests| && j.st.requests[j.st.calls[d].session].node == n
    && OnGrid(u.cfg, j.st.calls[d].id) && u.ids(call.key) == j.st.calls[d].id
    && j.st.progress[d].result == CameTo(call.pc) && (j.st.progress[d].waiting.Some? ==> call.pc.Fetching?)
  }

  ghost predicate CallsMatched(u: Setup, j: Joint, n: nat)
    requires n < |j.caches| && n < |j.ds|
  {
    && |j.ds[n]| == |j.caches[n].calls|
    && (forall t: nat :: t < |j.ds[n]| ==> CallMatched(u, j, n, t))
    && (forall t: nat, x: nat :: t < x < |j.ds[n]| ==> j.ds[n][t] < j.ds[n][x])
  }

  ghost predicate NodeMatched(u: Setup, j: Joint, n: nat)
    requires n < |j.caches| && n < |j.ds| && n < |j.st.nodes|
  {
    CC.WellFormed(j.caches[n]) && j.st.nodes[n].chunks == Mirror(u, j.caches[n]) && CallsMatched(u, j, n)
  }

  ghost predicate Matched(u: Setup, j: Joint) {
    |j.caches| == |j.ds| == |j.st.nodes| && forall n: nat :: n < |j.caches| ==> NodeMatched(u, j, n)
  }

  /** Every node's cache has the invariant of careful runs. */
  ghost predicate Caches(u: Setup, j: Joint) {
    forall n :: 0 <= n < |j.caches| ==> CE.Inv(u.c, j.caches[n])
  }

  /** Different calls of nodes are different calls of the cluster. */
  lemma Apart(u: Setup, j: Joint, n: nat, t: nat, m: nat, x: nat)
    requires n < |j.caches| == |j.ds| && m < |j.caches| && CallsMatched(u, j, n) && CallsMatched(u, j, m)
    requires t < |j.ds[n]| && x < |j.ds[m]| && j.ds[n][t] == j.ds[m][x]
    ensures n == m && t == x
  {
    assert CallMatched(u, j, n, t) && CallMatched(u, j, m, x);
  }

  // ---------------------------------------------------------------- a cache moves

  /** A node's other calls, and the calls of other nodes, are matched as they were. */
  lemma OthersMatched(u: Setup, j: Joint, n: nat, s': CC.State, t: nat, m: nat, x: nat)
    requires |j.caches| == |j.ds| && CanMove(j, n, t) && m < |j.caches|
    requires CallsMatched(u, j, n) && CallsMatched(u, j, m)
    requires x < |j.ds[m]| && (n != m || t != x) && CC.WellFormed(s') && CL.OthersStay(j.caches[n], s', t)
    ensures CallMatched(u, Ends(u, j, n, s', t), m, x)
  {
    assert CallMatched(u, j, m, x);
    if j.ds[n][t] == j.ds[m][x] { Apart(u, j, n, t, m, x); }
  }

  lemma CallsStayMatched(u: Setup, j: Joint, n: nat, s': CC.State, t: nat, m: nat)
    requires |j.caches| == |j.ds| && CanMove(j, n, t) && m < |j.caches|
    requires CallsMatched(u, j, n) && CallsMatched(u, j, m)
    requires CC.WellFormed(s') && CL.OthersStay(j.caches[n], s', t) && j.st.progress[j.ds[n][t]].waiting.None?
    ensures CallsMatched(u, Ends(u, j, n, s', t), m)
  {
    forall x: nat | x < |j.ds[m]| ensures CallMatched(u, Ends(u, j, n, s', t), m, x) {
      assert CallMatched(u, j, m, x);
      if n != m || t != x { OthersMatched(u, j, n, s', t, m, x); }
    }
  }

  lemma NodeStaysMatched(u: Setup, j: Joint, n: nat, s': CC.State, t: nat, m: nat)
    requires |j.caches| == |j.ds| == |j.st.nodes| && CanMove(j, n, t) && m < |j.caches|
    requires NodeMatched(u, j, n) && NodeMatched(u, j, m)
    requires CC.WellFormed(s') && CL.OthersStay(j.caches[n], s', t) && j.st.progress[j.ds[n][t]].waiting.None?
    ensures NodeMatched(u, Ends(u, j, n, s', t), m)
  {
    var j' := Ends(u, j, n, s', t);
    if m == n {
      assert j'.caches[m] == s' && j'.st.nodes[m].chunks == Mirror(u, s');
    } else {
      assert j'.caches[m] == j.caches[m] && j'.st.nodes[m] == j.st.nodes[m];
    }
    CallsStayMatched(u, j, n, s', t, m);
  }

  lemma MoveMatched(u: Setup, j: Joint, n: nat, s': CC.State, t: nat)
    requires Matched(u, j) && CanMove(j, n, t) && CC.WellFormed(s') && CL.OthersStay(j.caches[n], s', t)
    requires j.st.progress[j.ds[n][t]].waiting.None?
    ensures Matched(u, Ends(u, j, n, s', t))
  {
    forall m: nat | m < |j.caches| ensures NodeMatched(u, Ends(u, j, n, s', t), m) {
      assert NodeMatched(u, j, n);
      NodeStaysMatched(u, j, n, s', t, m);
    }
  }

  lemma CallsUnmoved(u: Setup, j: Joint, n: nat, s': CC.State, m: nat)
    requires |j.caches| == |j.ds| && Has(j, n) && m < |j.caches| && CallsMatched(u, j, m)
    requires CC.WellFormed(s') && s'.calls == j.caches[n].calls
    ensures CallsMatched(u, Now(u, j, n, s'), m)
  {
    forall x: nat | x < |j.ds[m]| ensures CallMatched(u, Now(u, j, n, s'), m, x) { assert CallMatched(u, j, m, x); }
  }

  lemma NodeUnmoved(u: Setup, j: Joint, n: nat, s': CC.State, m: nat)
    requires |j.caches| == |j.ds| == |j.st.nodes| && Has(j, n) && m < |j.caches| && NodeMatched(u, j, m)
    requires CC.WellFormed(s') && s'.calls == j.caches[n].calls
    ensures NodeMatched(u, Now(u, j, n, s'), m)
  {
    var j' := Now(u, j, n, s');
    if m == n {
      assert j'.caches[m] == s' && j'.st.nodes[m].chunks == Mirror(u, s');
    } else {
      assert j'.caches[m] == j.caches[m] && j'.st.nodes[m] == j.st.nodes[m];
    }
    CallsUnmoved(u, j, n, s', m);
  }

  /** A step of a cache in which no call moves. */
  lemma NowMatched(u: Setup, j: Joint, n: nat, s': CC.State)
    requires Matched(u, j) && Has(j, n) && CC.WellFormed(s') && s'.calls == j.caches[n].calls
    ensures Matched(u, Now(u, j, n, s'))
  {
    forall m: nat | m < |j.caches| ensures NodeMatched(u, Now(u, j, n, s'), m) { NodeUnmoved(u, j, n, s', m); }
  }

  // ---------------------------------------------------------------- the inner steps

  /** A joint state whose cluster part has the cluster's invariants. */
  ghost predicate Sound(u: Setup, j: Joint) {
    Proper(u) && Matched(u, j) && Caches(u, j) && ClusterServes.Good(u.cfg, j.st)
  }

  /** The cluster follows the joint machine from `j` to `j'`, and the two match again. */
  ghost predicate Followed(u: Setup, j: Joint, j': Joint) {
    u.cfg.block > 0 && Matched(u, j') && Caches(u, j') && Comes(u.cfg, j.st, j'.st)
  }

  lemma Unmoved(u: Setup, j: Joint)
    requires Sound(u, j)
    ensures Followed(u, j, j)
  {
    ComesNowhere(u.cfg, j.st);
  }

  lemma CallIsUnder(u: Setup, j: Joint, n: nat, t: nat)
    requires Proper(u) && Matched(u, j) && ClusterExact.Inv(u.cfg, j.st)
    requires CanMove(j, n, t) && CameTo(j.caches[n].calls[t].pc) == None
    requires j.st.progress[j.ds[n][t]].waiting.None?
    ensures Under(u, j.st, n, j.caches[n], t, j.ds[n][t])
  {
    var d, k := j.ds[n][t], j.caches[n].calls[t].key;
    assert NodeMatched(u, j, n) && CallMatched(u, j, n, t);
    assert ClusterExact.CallExact(u.cfg, j.st.requests, j.st.calls[d]);
    assert ClusterExact.ProgressExact(u.cfg, j.st.requests, d, j.st.calls[d], j.st.progress[d]);
    assert u.path(u.ids(k)) == k;
  }

  lemma FinishedStays(u: Setup, j: Joint, n: nat, t: nat)
    requires Matched(u, j) && CanMove(j, n, t)
    ensures Ends(u, j, n, j.caches[n], t) == j
  {
    assert NodeMatched(u, j, n) && CallMatched(u, j, n, t);
  }

  lemma MovedCaches(u: Setup, j: Joint, n: nat, t: nat, good: bool)
    requires Caches(u, j) && CanMove(j, n, t) && !CC.Careless(u.c, j.caches[n], CC.Move(t, good))
    ensures var s' := CC.StepCall(u.c, j.caches[n], t, good); t < |s'.calls| && Caches(u, Ends(u, j, n, s', t))
    ensures CL.OthersStay(j.caches[n], CC.StepCall(u.c, j.caches[n], t, good), t)
  {
    CE.CallKeepsInv(u.c, j.caches[n], t, good);
    CL.MovesItself(u.c, j.caches[n], t, good);
  }

  /** A call moves: the cluster follows, and the two match again. */
  lemma MoveFollows(u: Setup, j: Joint, n: nat, t: nat, good: bool)
    requires Sound(u, j) && CanMove(j, n, t) && j.st.progress[j.ds[n][t]].waiting.None?
    requires !CC.Careless(u.c, j.caches[n], CC.Move(t, good))
    ensures var s' := CC.StepCall(u.c, j.caches[n], t, good); t < |s'.calls| && Followed(u, j, Ends(u, j, n, s', t))
  {
    MovedCaches(u, j, n, t, good);
    if CameTo(j.caches[n].calls[t].pc) == None {
      CallIsUnder(u, j, n, t);
      MoveComes(u, j.st, n, j.caches[n], t, j.ds[n][t], good);
      MoveMatched(u, j, n, CC.StepCall(u.c, j.caches[n], t, good), t);
    } else {
      FinishedStays(u, j, n, t);
      Unmoved(u, j);
    }
  }

  lemma EvictComes(u: Setup, st: State, n: nat, s: CC.State, s': CC.State, k: CC.Key)
    requires Proper(u) && n < |st.nodes| && CC.WellFormed(s) && st.nodes[n].chunks == Mirror(u, s)
    requires CC.WellFormed(s') && s' == s.(entries := s.entries - {k})
    ensures Comes(u.cfg, st, Reflect(u, st, n, s'))
  {
    MirrorCut(u, s, s', k);
    Evicts(u.cfg, n, st, u.ids(k));
  }

  lemma DropComes(u: Setup, st: State, n: nat, s: CC.State, i: nat)
    requires Proper(u) && n < |st.nodes| && CC.WellFormed(s) && st.nodes[n].chunks == Mirror(u, s)
    ensures Comes(u.cfg, st, Reflect(u, st, n, CC.StepDrop(s, i)))
  {
    MirrorSame(u, s, CC.StepDrop(s, i));
    assert Reflect(u, st, n, CC.StepDrop(s, i)) == st;
    ComesNowhere(u.cfg, st);
  }

  lemma LossCaches(u: Setup, j: Joint, n: nat, a: CC.Action)
    requires Caches(u, j) && Has(j, n) && (a.Evict? || a.Drop?)
    ensures var s' := CC.Step(u.c, j.caches[n], a); s'.calls == j.caches[n].calls && Caches(u, Now(u, j, n, s'))
  {
    CE.LossKeepsInv(u.c, j.caches[n], a);
  }

  lemma LossFollows(u: Setup, j: Joint, n: nat, a: CC.Action)
    requires Sound(u, j) && Has(j, n) && (a.Evict? || a.Drop?)
    ensures Followed(u, j, Now(u, j, n, CC.Step(u.c, j.caches[n], a)))
  {
    assert NodeMatched(u, j, n);
    LossCaches(u, j, n, a);
    NowMatched(u, j, n, CC.Step(u.c, j.caches[n], a));
    if a.Evict? {
      EvictComes(u, j.st, n, j.caches[n], CC.Step(u.c, j.caches[n], a), a.key);
    } else {
      DropComes(u, j.st, n, j.caches[n], a.item);
    }
  }

  lemma InnerMoveFollows(u: Setup, j: Joint, n: nat, t: nat, good: bool)
    requires Sound(u, j) && !JointCareless(u, j, Inner(n, CC.Move(t, good)))
    ensures Followed(u, j, DoInner(u, j, n, CC.Move(t, good)))
  {
    if CanMove(j, n, t) && !j.caches[n].calls[t].pc.Fetching? {
      assert NodeMatched(u, j, n) && CallMatched(u, j, n, t);
      MoveFollows(u, j, n, t, good);
      assert DoInner(u, j, n, CC.Move(t, good)) == Ends(u, j, n, CC.StepCall(u.c, j.caches[n], t, good), t);
    } else {
      Unmoved(u, j);
    }
  }

  lemma InnerFollows(u: Setup, j: Joint, n: nat, a: CC.Action)
    requires Sound(u, j) && !JointCareless(u, j, Inner(n, a))
    ensures Followed(u, j, DoInner(u, j, n, a))
  {
    if a.Move? {
      InnerMoveFollows(u, j, n, a.call, a.good);
    } else if Has(j, n) && (a.Evict? || a.Drop?) {
      LossFollows(u, j, n, a);
    } else {
      Unmoved(u, j);
    }
  }

  lemma FetchFollows(u: Setup, j: Joint, n: nat, t: nat, origin: Http)
    requires Sound(u, j)
    ensures Followed(u, j, DoFetch(u, j, n, t, origin))
  {
    Unmoved(u, j);
    if CanFetch(u, j, n, t, origin) {
      var d := j.ds[n][t];
      CallIsUnder(u, j, n, t);
      BroughtIsStep(u, j.st, j.caches[n], t, d, origin);
      MoveFollows(u, j, n, t, Fetched(j.st.calls[d].asks, j.st.progress[d].events, origin, j.st.calls[d].count).Ok?);
    }
  }

  // ---------------------------------------------------------------- the outer steps

  /** What a step of the cluster that is no cache's business leaves alone: the caches, the requests and
      calls there are, and what calls have come to; and whom a call waits for, unless it asks. */
  ghost predicate Spares(st: State, st': State, a: Action) {
    && |st'.nodes| == |st.nodes| && (forall n :: 0 <= n < |st.nodes| ==> st'.nodes[n].chunks == st.nodes[n].chunks)
    && st.requests <= st'.requests && st.calls <= st'.calls && |st.progress| <= |st'.progress|
    && (forall d: nat :: d < |st.progress| ==>
          && st'.progress[d].result == st.progress[d].result
          && (st'.progress[d].waiting == st.progress[d].waiting || (AsksPeers(a) && a.c == d)))
    && (forall d: nat :: |st.progress| <= d < |st'.progress| ==> st'.progress[d] == Progress([], None, None))
  }

  ghost predicate SameChunks(st: State, st': State) {
    |st'.nodes| == |st.nodes| && forall n :: 0 <= n < |st.nodes| ==> st'.nodes[n].chunks == st.nodes[n].chunks
  }

  /** The steps that change a node at all. */
  predicate ChangesNode(a: Action) { a.Stat? || a.Forget? || a.Prefetch? || a.Send? || a.Take? || a.Report? }

  lemma OtherNodesSpared(cfg: Config, st: State, a: Action)
    requires cfg.block > 0 && IsOuter(a) && !ChangesNode(a)
    ensures SameChunks(st, Step(cfg, st, a))
  {
  }

  lemma StatSpares(cfg: Config, st: State, q: nat, response: Keys.StatResponse)
    ensures SameChunks(st, DoStat(cfg, st, q, response))
  {
  }

  lemma PrefetchSpares(cfg: Config, st: State, q: nat, segs: seq<Segments.Segment>)
    requires cfg.block > 0
    ensures SameChunks(st, DoPrefetch(cfg, st, q, segs))
  {
  }

  lemma ForgetSpares(st: State, n: nat, name: string)
    ensures SameChunks(st, DoForget(st, n, name))
  {
  }

  lemma SendSpares(cfg: Config, st: State, n: nat, job: Job)
    ensures SameChunks(st, DoSend(cfg, st, n, job))
  {
  }

  lemma TakeSpares(cfg: Config, st: State, n: nat, asks: bool)
    ensures SameChunks(st, DoTake(cfg, st, n, asks))
  {
  }

  lemma ReportSpares(st: State, n: nat, w: nat)
    ensures SameChunks(st, DoReport(st, n, w))
  {
  }

  lemma NodesSpared(cfg: Config, st: State, a: Action)
    requires cfg.block > 0 && ChangesNode(a)
    ensures SameChunks(st, Step(cfg, st, a))
  {
    match a
    case Stat(q, response) => StatSpares(cfg, st, q, response);
    case Prefetch(q, segs) => PrefetchSpares(cfg, st, q, segs);
    case Forget(n, name) => ForgetSpares(st, n, name);
    case Send(n, job) => SendSpares(cfg, st, n, job);
    case Take(n, asks) => TakeSpares(cfg, st, n, asks);
    case Report(n, w) => ReportSpares(st, n, w);
  }

  lemma SparesProgress(cfg: Config, st: State, a: Action)
    requires cfg.block > 0 && IsOuter(a)
    ensures var st' := Step(cfg, st, a);
            && |st.progress| <= |st'.progress|
            && (forall d: nat :: d < |st.progress| ==>
                  && st'.progress[d].result == st.progress[d].result
                  && (st'.progress[d].waiting == st.progress[d].waiting || (AsksPeers(a) && a.c == d)))
            && (forall d: nat :: |st.progress| <= d < |st'.progress| ==> st'.progress[d] == Progress([], None, None))
  {
  }

  lemma OuterSpares(cfg: Config, st: State, a: Action)
    requires cfg.block > 0 && IsOuter(a)
    ensures Spares(st, Step(cfg, st, a), a)
  {
    if ChangesNode(a) { NodesSpared(cfg, st, a); } else { OtherNodesSpared(cfg, st, a); }
    SparesProgress(cfg, st, a);
    ClusterTheorems.CallsStay(cfg, st, a);
    ClusterTheorems.RequestsStep(cfg, st, a);
  }

  /** A call for which somebody is being asked is fetching. */
  lemma AskedIsFetching(u: Setup, j: Joint, m: nat, x: nat)
    requires Matched(u, j) && m < |j.caches| && x < |j.ds[m]| && InFetch(j, j.ds[m][x])
    ensures NodeMatched(u, j, m) && j.caches[m].calls[x].pc.Fetching?
  {
    var n: nat, t: nat :| Is(j, n, t, j.ds[m][x]) && j.caches[n].calls[t].pc.Fetching?;
    assert NodeMatched(u, j, n) && NodeMatched(u, j, m);
    Apart(u, j, n, t, m, x);
  }

  lemma SparedCall(u: Setup, j: Joint, st': State, a: Action, m: nat, x: nat)
    requires Matched(u, j) && Spares(j.st, st', a) && (AsksPeers(a) ==> InFetch(j, a.c))
    requires m < |j.caches| && x < |j.ds[m]|
    ensures NodeMatched(u, j, m) && CallMatched(u, j.(st := st'), m, x)
  {
    assert NodeMatched(u, j, m) && CallMatched(u, j, m, x);
    if AsksPeers(a) && a.c == j.ds[m][x] { AskedIsFetching(u, j, m, x); }
  }

  lemma SparedMatches(u: Setup, j: Joint, st': State, a: Action)
    requires Matched(u, j) && Spares(j.st, st', a) && (AsksPeers(a) ==> InFetch(j, a.c))
    ensures Matched(u, j.(st := st'))
  {
    forall m: nat | m < |j.caches| ensures NodeMatched(u, j.(st := st'), m) {
      assert NodeMatched(u, j, m);
      forall x: nat | x < |j.ds[m]| ensures CallMatched(u, j.(st := st'), m, x) { SparedCall(u, j, st', a, m, x); }
    }
  }

  // ---------------------------------------------------------------- a call begins

  /** The cluster's call `d` begins on node `n`. */
  function Begun(u: Setup, j: Joint, n: nat, d: nat): Joint
    requires Has(j, n) && d < |j.st.calls|
  {
    j.(caches := j.caches[n := CC.Step(u.c, j.caches[n], CC.Begin(u.path(j.st.calls[d].id)))],
       ds := j.ds[n := j.ds[n] + [d]])
  }

  ghost predicate CanBegin(u: Setup, j: Joint, n: nat, d: nat) {
    && Has(j, n) && d < |j.st.calls| && d < |j.st.progress| && j.st.progress[d] == Progress([], None, None)
    && j.st.calls[d].session < |j.st.requests| && j.st.requests[j.st.calls[d].session].node == n
    && OnGrid(u.cfg, j.st.calls[d].id)
    && (forall t: nat :: t < |j.ds[n]| ==> j.ds[n][t] < d)
  }

  lemma BeginMirrors(u: Setup, s: CC.State, k: CC.Key)
    requires Proper(u) && CC.WellFormed(s)
    ensures Mirror(u, CC.Step(u.c, s, CC.Begin(k))) == Mirror(u, s)
  {
    MirrorSame(u, s, s.(calls := s.calls + [CC.Call(k, CC.Lookup)]));
  }

  lemma CallsBegun(u: Setup, j: Joint, n: nat, d: nat, m: nat)
    requires Proper(u) && |j.caches| == |j.ds| && CanBegin(u, j, n, d) && m < |j.caches| && CallsMatched(u, j, m)
    ensures CallsMatched(u, Begun(u, j, n, d), m)
  {
    var j' := Begun(u, j, n, d);
    forall x: nat | x < |j'.ds[m]| ensures CallMatched(u, j', m, x) {
      if x < |j.ds[m]| { assert CallMatched(u, j, m, x); }
    }
  }

  lemma NodeBegun(u: Setup, j: Joint, n: nat, d: nat, m: nat)
    requires Proper(u) && |j.caches| == |j.ds| == |j.st.nodes| && CanBegin(u, j, n, d)
    requires m < |j.caches| && NodeMatched(u, j, m)
    ensures NodeMatched(u, Begun(u, j, n, d), m)
  {
    CallsBegun(u, j, n, d, m);
    if m == n {
      BeginMirrors(u, j.caches[n], u.path(j.st.calls[d].id));
    } else {
      assert Begun(u, j, n, d).caches[m] == j.caches[m];
    }
  }

  lemma BegunMatches(u: Setup, j: Joint, n: nat, d: nat)
    requires Proper(u) && Matched(u, j) && CanBegin(u, j, n, d)
    ensures Matched(u, Begun(u, j, n, d))
  {
    forall m: nat | m < |j.caches| ensures NodeMatched(u, Begun(u, j, n, d), m) { NodeBegun(u, j, n, d, m); }
  }

  lemma BegunCaches(u: Setup, j: Joint, n: nat, d: nat)
    requires Caches(u, j) && Has(j, n) && d < |j.st.calls|
    ensures Caches(u, Begun(u, j, n, d))
  {
    CE.BeginKeepsInv(u.c, j.caches[n], u.path(j.st.calls[d].id));
  }

  lemma NewCallCanBegin(u: Setup, j: Joint, st': State, a: Action)
    requires Matched(u, j) && Spares(j.st, st', a) && ClusterServes.Good(u.cfg, st')
    requires |j.st.calls| == |j.st.progress| && |j.st.calls| < |st'.calls|
    requires st'.calls[|j.st.calls|].session < |j.st.requests|
    requires Has(j, j.st.requests[st'.calls[|j.st.calls|].session].node)
    ensures CanBegin(u, j.(st := st'), j.st.requests[st'.calls[|j.st.calls|].session].node, |j.st.calls|)
  {
    var d := |j.st.calls|;
    var n := j.st.requests[st'.calls[d].session].node;
    assert ClusterExact.CallExact(u.cfg, st'.requests, st'.calls[d]);
    assert NodeMatched(u, j, n);
    forall t: nat | t < |j.ds[n]| ensures j.ds[n][t] < d { assert CallMatched(u, j, n, t); }
  }

  /** What is no cache's business happens in the joint machine as it does in the cluster; peers are asked
      for calls that fetch, and for no others. */
  lemma OuterIsStep(u: Setup, j: Joint, a: Action)
    requires u.cfg.block > 0 && IsOuter(a)
    ensures JointStep(u, j, Outer(a)).st == if AsksPeers(a) && !InFetch(j, a.c) then j.st else Step(u.cfg, j.st, a)
  {
  }

  lemma OuterFollows(u: Setup, j: Joint, a: Action)
    requires Sound(u, j)
    ensures Followed(u, j, DoOuter(u, j, a))
  {
    if !IsOuter(a) || (AsksPeers(a) && !InFetch(j, a.c)) {
      Unmoved(u, j);
    } else {
      OuterStepFollows(u, j, a);
    }
  }

  lemma OuterStepFollows(u: Setup, j: Joint, a: Action)
    requires Sound(u, j) && IsOuter(a) && (AsksPeers(a) ==> InFetch(j, a.c))
    ensures Followed(u, j, DoOuter(u, j, a))
  {
    var st', d := Step(u.cfg, j.st, a), |j.st.calls|;
    var j1 := j.(st := st');
    OuterSpares(u.cfg, j.st, a);
    SparedMatches(u, j, st', a);
    ComesOnce(u.cfg, j.st, a);
    if d < |st'.calls| && st'.calls[d].session < |j.st.requests|
       && Has(j, j.st.requests[st'.calls[d].session].node)
    {
      var n := j.st.requests[st'.calls[d].session].node;
      ClusterServes.StepIsGood(u.cfg, j.st, a);
      NewCallCanBegin(u, j, st', a);
      BegunMatches(u, j1, n, d);
      BegunCaches(u, j1, n, d);
      assert DoOuter(u, j, a) == Begun(u, j1, n, d);
    }
  }

  // ---------------------------------------------------------------- runs

  lemma StepFollows(u: Setup, j: Joint, a: JointAction)
    requires Sound(u, j) && !JointCareless(u, j, a)
    ensures Followed(u, j, JointStep(u, j, a))
  {
    match a
    case Outer(a) => OuterFollows(u, j, a);
    case Inner(n, move) => InnerFollows(u, j, n, move);
    case Fetch(n, t, origin) => FetchFollows(u, j, n, t, origin);
  }

  lemma InitMatched(u: Setup, disks: seq<CC.State>)
    requires Proper(u) && forall n :: 0 <= n < |disks| ==> CE.Start(u.c, disks[n])
    ensures Matched(u, JointInit(disks)) && Caches(u, JointInit(disks))
  {
    var j := JointInit(disks);
    forall n: nat | n < |disks| ensures CE.Inv(u.c, disks[n]) && NodeMatched(u, j, n) {
      CE.StartInv(u.c, disks[n]);
    }
  }

  lemma {:induction false} JointRunFollowed(u: Setup, disks: seq<CC.State>, acts: seq<JointAction>)
      returns (past: seq<Action>)
    requires Proper(u) && (forall n :: 0 <= n < |disks| ==> CE.Start(u.c, disks[n]))
    requires JointCareful(u, JointInit(disks), acts)
    ensures var j := JointRun(u, JointInit(disks), acts);
            Matched(u, j) && Caches(u, j) && j.st == Run(u.cfg, |disks|, past)
    decreases |acts|
  {
    if acts == [] {
      past := [];
      InitMatched(u, disks);
    } else {
      var m := |acts| - 1;
      EverMore(JointCarelessAfter(u, JointInit(disks)), acts);
      var before := JointRunFollowed(u, disks, acts[..m]);
      past := OneMore(u, |disks|, JointRun(u, JointInit(disks), acts[..m]), before, acts[m]);
    }
  }

  lemma OneMore(u: Setup, nodes: nat, j: Joint, before: seq<Action>, a: JointAction) returns (past: seq<Action>)
    requires Proper(u) && Matched(u, j) && Caches(u, j) && j.st == Run(u.cfg, nodes, before) && !JointCareless(u, j, a)
    ensures Followed(u, j, JointStep(u, j, a)) && JointStep(u, j, a).st == Run(u.cfg, nodes, past)
  {
    ClusterServes.RunIsGood(u.cfg, nodes, before);
    StepFollows(u, j, a);
    var more := GoesByRun(u.cfg, Any, nodes, before, JointStep(u, j, a).st);
    past := before + more;
  }

  /** Whatever careful run the joint machine makes, over any number of nodes, from disks whose leftover
      files pass for chunks only if they are, with calls of GetOrCreate interleaved step by step, asking
      peers, evicted, dropped and failing: the requests, files, caches, calls and pipelines of its state
      are those of a run of the cluster. */
  lemma JointRefinesCluster(u: Setup, disks: seq<CC.State>, acts: seq<JointAction>) returns (past: seq<Action>)
    requires Proper(u) && (forall n :: 0 <= n < |disks| ==> CE.Start(u.c, disks[n]))
    requires JointCareful(u, JointInit(disks), acts)
    ensures JointRun(u, JointInit(disks), acts).st == Run(u.cfg, |disks|, past)
  {
    past := JointRunFollowed(u, disks, acts);
  }

  /** So the interleaved cluster is as safe as the other: its caches and answers are exact, and every
      call that returns, returns its chunk. */
  lemma JointSafe(u: Setup, disks: seq<CC.State>, acts: seq<JointAction>)
    requires Proper(u) && (forall n :: 0 <= n < |disks| ==> CE.Start(u.c, disks[n]))
    requires JointCareful(u, JointInit(disks), acts)
    ensures ClusterTheorems.Safe(u.cfg, JointRun(u, JointInit(disks), acts).st)
  {
    var past := JointRefinesCluster(u, disks, acts);
    ClusterTheorems.ClusterSafe(u.cfg, |disks|, past);
  }

  // ---------------------------------------------------------------- no call is left out

  /** The cluster's call `d` is a call of some node. */
  ghost predicate Owned(j: Joint, d: nat) {
    exists n: nat, t: nat :: n < |j.ds| && t < |j.ds[n]| && j.ds[n][t] == d
  }

  ghost predicate AllOwned(j: Joint) { forall d: nat :: d < |j.st.calls| ==> Owned(j, d) }

  lemma TakeHasNode(cfg: Config, st: State, n: nat, asks: bool)
    requires ClusterExact.NodesOk(cfg, st) && ClusterPrefetch.Pipeline(st) && DoTake(cfg, st, n, asks) != st
    ensures var call := DoTake(cfg, st, n, asks).calls[|st.calls|];
            call.session < |st.requests| && st.requests[call.session].node < |st.nodes|
  {
    var node := st.nodes[n];
    assert ClusterPrefetch.Conserved(node) && ClusterExact.NodeOk(cfg, st.requests, n, node);
    assert node.queue[0] in multiset(node.queue);
    assert ClusterExact.JobOk(cfg, st.requests, n, node.queue[0]);
  }

  lemma WhoMakesCalls(cfg: Config, st: State, a: Action)
    requires cfg.block > 0 && |st.calls| < |Step(cfg, st, a).calls|
    ensures a.Take? || a.Read?
  {
  }

  /** A call is made for a session on one of the nodes. */
  lemma NewCallHasNode(cfg: Config, st: State, a: Action)
    requires ClusterServes.Good(cfg, st) && |st.calls| < |Step(cfg, st, a).calls|
    ensures var call := Step(cfg, st, a).calls[|st.calls|];
            call.session < |st.requests| && st.requests[call.session].node < |st.nodes|
  {
    WhoMakesCalls(cfg, st, a);
    if a.Take? { TakeHasNode(cfg, st, a.node, a.asks); }
  }

  lemma StaysOwned(j: Joint, j': Joint, d: nat)
    requires Owned(j, d) && |j'.ds| == |j.ds| && forall n :: 0 <= n < |j.ds| ==> j.ds[n] <= j'.ds[n]
    ensures Owned(j', d)
  {
    var n: nat, t: nat :| n < |j.ds| && t < |j.ds[n]| && j.ds[n][t] == d;
    assert j'.ds[n][t] == d;
  }

  lemma OuterOwned(u: Setup, j: Joint, a: Action)
    requires Sound(u, j) && AllOwned(j)
    ensures AllOwned(DoOuter(u, j, a))
  {
    var j', d := DoOuter(u, j, a), |j.st.calls|;
    ClusterTheorems.CallsStay(u.cfg, j.st, a);
    if d < |j'.st.calls| {
      NewCallHasNode(u.cfg, j.st, a);
      var n := j.st.requests[j'.st.calls[d].session].node;
      assert NodeMatched(u, j, n);
      assert j'.ds[n][|j.ds[n]|] == d;
    }
    forall e: nat | e < |j'.st.calls| ensures Owned(j', e) {
      if e < d { StaysOwned(j, j', e); }
    }
  }

  lemma StepOwned(u: Setup, j: Joint, a: JointAction)
    requires Sound(u, j) && AllOwned(j)
    ensures AllOwned(JointStep(u, j, a))
  {
    if a.Outer? {
      OuterOwned(u, j, a.a);
    } else {
      var j' := JointStep(u, j, a);
      assert j'.ds == j.ds && j'.st.calls == j.st.calls;
      forall d: nat | d < |j'.st.calls| ensures Owned(j', d) { StaysOwned(j, j', d); }
    }
  }

  lemma {:induction false} RunOwned(u: Setup, disks: seq<CC.State>, acts: seq<JointAction>)
    requires Proper(u) && (forall n :: 0 <= n < |disks| ==> CE.Start(u.c, disks[n]))
    requires JointCareful(u, JointInit(disks), acts)
    ensures AllOwned(JointRun(u, JointInit(disks), acts))
    decreases |acts|
  {
    if acts != [] {
      var m := |acts| - 1;
      EverMore(JointCarelessAfter(u, JointInit(disks)), acts);
      RunOwned(u, disks, acts[..m]);
      var before := JointRunFollowed(u, disks, acts[..m]);
      ClusterServes.RunIsGood(u.cfg, |disks|, before);
      StepOwned(u, JointRun(u, JointInit(disks), acts[..m]), acts[m]);
    }
  }

  /** The cluster's call `d` is call `t` of node `n`, has come to what that call has come to, and the
      node shows what that call's cache holds. */
  ghost predicate Stands(u: Setup, j: Joint, d: nat, n: nat, t: nat) {
    && Is(j, n, t, d) && d < |j.st.progress| && j.st.progress[d].result == CameTo(j.caches[n].calls[t].pc)
    && j.st.nodes[n].chunks == Mirror(u, j.caches[n])
  }

  /** And in every careful run the cluster's calls are the nodes' own, every one of them. */
  lemma EveryCallStands(u: Setup, disks: seq<CC.State>, acts: seq<JointAction>, d: nat)
    requires Proper(u) && (forall n :: 0 <= n < |disks| ==> CE.Start(u.c, disks[n]))
    requires JointCareful(u, JointInit(disks), acts) && d < |JointRun(u, JointInit(disks), acts).st.calls|
    ensures exists n: nat, t: nat :: Stands(u, JointRun(u, JointInit(disks), acts), d, n, t)
  {
    var j := JointRun(u, JointInit(disks), acts);
    RunOwned(u, disks, acts);
    var past := JointRunFollowed(u, disks, acts);
    assert Owned(j, d);
    var n: nat, t: nat :| n < |j.ds| && t < |j.ds[n]| && j.ds[n][t] == d;
    assert NodeMatched(u, j, n) && CallMatched(u, j, n, t);
    assert Stands(u, j, d, n, t);
  }

  // ---------------------------------------------------------------- paths on disk

  /** Some chunk of the cluster has this path. */
  ghost predicate IsPath(cfg: Config, dir: string, k: CC.Key, id: ChunkId) {
    OnGrid(cfg, id) && id.off >= 0 && k == Keys.GetKey(dir, id.name, id.off)
  }

  ghost function ChunkOf(cfg: Config, dir: string, k: CC.Key): ChunkId {
    if exists id :: IsPath(cfg, dir, k, id) then (var id :| IsPath(cfg, dir, k, id); id) else ChunkId(k, -1)
  }

  function PathOf(cfg: Config, dir: string, id: ChunkId): CC.Key {
    if OnGrid(cfg, id) && id.off >= 0 then Keys.GetKey(dir, id.name, id.off) else id.name
  }

  ghost function ContentOf(cfg: Config, dir: string, k: CC.Key): seq<byte> {
    var id := ChunkOf(cfg, dir, k);
    if OnGrid(cfg, id) then Want(cfg, id) else []
  }

  lemma PathsDiffer(cfg: Config, dir: string, id: ChunkId, other: ChunkId)
    requires Sensible(cfg) && (forall n :: n in cfg.blobs ==> '/' !in n)
    requires IsPath(cfg, dir, PathOf(cfg, dir, id), other) && OnGrid(cfg, id)
    ensures id == other
  {
    Keys.GetKeyInjective(dir, id.name, id.off, other.name, other.off);
  }

  /** The paths that getKey makes for chunks fit the bill, in any directory. */
  lemma PathsFit(cfg: Config, dir: string) returns (u: Setup)
    requires Sensible(cfg) && (forall n :: n in cfg.blobs ==> '/' !in n)
    ensures u.cfg == cfg && Proper(u)
    ensures forall id :: OnGrid(cfg, id) ==> id.off >= 0 && u.path(id) == Keys.GetKey(dir, id.name, id.off)
  {
    u := Setup(cfg, CC.Config(k => ContentOf(cfg, dir, k)), k => ChunkOf(cfg, dir, k), id => PathOf(cfg, dir, id));
    forall id | OnGrid(cfg, id) ensures ChunkOf(cfg, dir, PathOf(cfg, dir, id)) == id {
      assert IsPath(cfg, dir, PathOf(cfg, dir, id), id);
      PathsDiffer(cfg, dir, id, ChunkOf(cfg, dir, PathOf(cfg, dir, id)));
    }
  }
}
