/** Which calls can still succeed in the cluster with the concurrent caches inside: exactly those that are
    not on a dropped item, each by its own node's steps, with its own fetch from its peers or the origin. */
module ClusterReturns {
  import opened Common
  import opened Reachability
  import opened Reader
  import opened Cluster
  import opened ClusterJoint
  import opened ClusterConcurrent
  import ClusterExact
  import ClusterServes
  import CC = ConcurrentCache
  import CE = ConcurrentExact
  import CR = ConcurrentReturns
  import Crash = ConcurrentCrash

  // ---------------------------------------------------------------- going on

  ghost predicate JointNext(u: Setup, j: Joint, j': Joint) {
    u.cfg.block > 0 && exists a :: !JointCareless(u, j, a) && j' == JointStep(u, j, a)
  }

  ghost function JointNextOf(u: Setup): (Joint, Joint) -> bool { (j, j') => JointNext(u, j, j') }

  /** Careful steps of the joint machine lead from one state to the other. */
  ghost predicate JointLeads(u: Setup, j: Joint, j': Joint) { Reaches(JointNextOf(u), j, j') }

  lemma NextIsGood(cfg: Config, st: State, st': State)
    requires ClusterServes.Good(cfg, st) && StepWhere(cfg, Any, st, st')
    ensures ClusterServes.Good(cfg, st')
  {
    var a :| Any(a) && st' == Step(cfg, st, a);
    ClusterServes.StepIsGood(cfg, st, a);
  }

  ghost function GoodOf(cfg: Config): State -> bool { st => ClusterServes.Good(cfg, st) }

  lemma ComesIsGood(cfg: Config, st: State, st': State)
    requires ClusterServes.Good(cfg, st) && Comes(cfg, st, st')
    ensures ClusterServes.Good(cfg, st')
  {
    forall a, b | GoodOf(cfg)(a) && StepsWhere(cfg, Any)(a, b) ensures GoodOf(cfg)(b) { NextIsGood(cfg, a, b); }
    ReachesKeeps(StepsWhere(cfg, Any), GoodOf(cfg), st, st');
  }

  lemma GoesJointly(u: Setup, j: Joint, a: JointAction) returns (j': Joint)
    requires Sound(u, j) && !JointCareless(u, j, a)
    ensures j' == JointStep(u, j, a) && Sound(u, j') && JointLeads(u, j, j')
  {
    j' := JointStep(u, j, a);
    StepFollows(u, j, a);
    ComesIsGood(u.cfg, j.st, j'.st);
    assert JointNext(u, j, j');
    Goes(JointNextOf(u), j, j');
  }

  lemma JointNextAction(u: Setup, j: Joint, j': Joint) returns (a: JointAction)
    requires JointNext(u, j, j')
    ensures !JointCareless(u, j, a) && j' == JointStep(u, j, a)
  {
    a :| !JointCareless(u, j, a) && j' == JointStep(u, j, a);
  }

  lemma {:induction false} JointPathIsRun(u: Setup, j: Joint, acts: seq<JointAction>, js: seq<Joint>)
      returns (more: seq<JointAction>)
    requires u.cfg.block > 0 && JointCareful(u, j, acts) && Path(JointNextOf(u), js) && js[0] == JointRun(u, j, acts)
    ensures JointCareful(u, j, acts + more) && JointRun(u, j, acts + more) == js[|js| - 1]
    decreases |js|
  {
    if |js| == 1 {
      more := [];
      assert acts + more == acts;
    } else {
      var m := |js| - 1;
      assert Path(JointNextOf(u), js[..m]);
      var before := JointPathIsRun(u, j, acts, js[..m]);
      assert JointNextOf(u)(js[m - 1], js[m]);
      var a := JointNextAction(u, js[m - 1], js[m]);
      more := before + [a];
      JointRunMore(u, j, acts + before, a);
      assert acts + before + [a] == acts + more;
    }
  }

  lemma JointRunMore(u: Setup, j: Joint, acts: seq<JointAction>, a: JointAction)
    requires u.cfg.block > 0 && JointCareful(u, j, acts) && !JointCareless(u, JointRun(u, j, acts), a)
    ensures JointCareful(u, j, acts + [a]) && JointRun(u, j, acts + [a]) == JointStep(u, JointRun(u, j, acts), a)
  {
    var all := acts + [a];
    assert all[..|all| - 1] == acts;
    EverMore(JointCarelessAfter(u, j), all);
  }

  // ---------------------------------------------------------------- a node's calm steps

  /** Node `n`'s cache is in state `s` now, and its calls are the same calls of the cluster. */
  ghost predicate NodeAt(u: Setup, j: Joint, j': Joint, n: nat, s: CC.State) {
    && Sound(u, j') && JointLeads(u, j, j')
    && n < |j.caches| == |j'.caches| && n < |j.ds| && n < |j'.ds| && j'.caches[n] == s && j'.ds[n] == j.ds[n]
  }

  lemma NodeAtOn(u: Setup, j: Joint, j1: Joint, j': Joint, n: nat, s1: CC.State, s: CC.State)
    requires NodeAt(u, j, j1, n, s1) && NodeAt(u, j1, j', n, s)
    ensures NodeAt(u, j, j', n, s)
  {
    GoesOn(JointNextOf(u), j, j1, j');
  }

  lemma SoundMoves(u: Setup, j: Joint, n: nat, t: nat)
    requires Sound(u, j) && n < |j.caches| && t < |j.caches[n].calls|
    ensures CanMove(j, n, t) && CallMatched(u, j, n, t)
  {
    assert NodeMatched(u, j, n) && CallMatched(u, j, n, t);
  }

  lemma MoveJointly(u: Setup, j: Joint, n: nat, t: nat, good: bool) returns (j': Joint)
    requires Sound(u, j) && n < |j.caches| && CR.Calm(u.c, j.caches[n], t, good)
    requires !j.caches[n].calls[t].pc.Fetching?
    ensures NodeAt(u, j, j', n, CC.StepCall(u.c, j.caches[n], t, good))
  {
    SoundMoves(u, j, n, t);
    j' := GoesJointly(u, j, Inner(n, CC.Move(t, good)));
  }

  /** The call's fetch waits for nobody. */
  ghost predicate Waitless(j: Joint, n: nat, t: nat) {
    CanMove(j, n, t) && j.caches[n].calls[t].pc.Fetching? && j.st.progress[j.ds[n][t]].waiting.None?
  }

  lemma AnsweredDoes(u: Setup, j: Joint, n: nat, t: nat)
    requires u.cfg.block > 0 && CanMove(j, n, t) && CallMatched(u, j, n, t) && j.caches[n].calls[t].pc.Fetching?
    ensures var j' := DoOuter(u, j, Answered(j.ds[n][t], true));
            j'.caches == j.caches && j'.ds == j.ds && Waitless(j', n, t)
  {
    var d := j.ds[n][t];
    assert Is(j, n, t, d) && InFetch(j, d);
    assert DoOuter(u, j, Answered(d, true)) == j.(st := DoAnswered(j.st, d, true));
  }

  /** The peer a call waits for, if it waits, does not answer. */
  lemma StopsWaiting(u: Setup, j: Joint, n: nat, t: nat) returns (j': Joint)
    requires Sound(u, j) && n < |j.caches| && t < |j.caches[n].calls| && j.caches[n].calls[t].pc.Fetching?
    ensures NodeAt(u, j, j', n, j.caches[n]) && Waitless(j', n, t)
  {
    SoundMoves(u, j, n, t);
    AnsweredDoes(u, j, n, t);
    j' := GoesJointly(u, j, Outer(Answered(j.ds[n][t], true)));
  }

  /** A fetch is a step of its node's cache. */
  lemma FetchIsStep(u: Setup, j: Joint, n: nat, t: nat, origin: Http)
    requires Sound(u, j) && CanFetch(u, j, n, t, origin)
    ensures var d := j.ds[n][t];
            var r := Fetched(j.st.calls[d].asks, j.st.progress[d].events, origin, j.st.calls[d].count);
            var j' := DoFetch(u, j, n, t, origin);
            j'.caches == j.caches[n := CC.StepCall(u.c, j.caches[n], t, r.Ok?)] && j'.ds == j.ds
  {
    CallIsUnder(u, j, n, t);
    BroughtIsStep(u, j.st, j.caches[n], t, j.ds[n][t], origin);
  }

  /** The origin has what the call wants. */
  function Serves(u: Setup, j: Joint, n: nat, t: nat): Http
    requires CanMove(j, n, t) && j.ds[n][t] < |j.st.calls| && OnGrid(u.cfg, j.st.calls[j.ds[n][t]].id)
  {
    Response(206, Want(u.cfg, j.st.calls[j.ds[n][t]].id))
  }

  lemma ReadyIsServed(cfg: Config, st: State, d: nat)
    requires cfg.block > 0 && Ready(cfg, st, d)
    ensures var call, origin := st.calls[d], Response(206, Want(cfg, st.calls[d].id));
            && OriginHonours(cfg.blobs[call.id.name], call.id.off, call.count, origin)
            && Fetched(call.asks, st.progress[d].events, origin, call.count).Ok?
  {
    ClusterExact.OriginServes(st.calls[d].asks, st.progress[d].events, Want(cfg, st.calls[d].id));
  }

  lemma OriginCan(u: Setup, j: Joint, n: nat, t: nat)
    requires Sound(u, j) && Waitless(j, n, t)
    ensures j.ds[n][t] < |j.st.calls| && OnGrid(u.cfg, j.st.calls[j.ds[n][t]].id)
    ensures CanFetch(u, j, n, t, Serves(u, j, n, t))
    ensures var d := j.ds[n][t];
            Fetched(j.st.calls[d].asks, j.st.progress[d].events, Serves(u, j, n, t), j.st.calls[d].count).Ok?
  {
    CallIsUnder(u, j, n, t);
    ReadyIsServed(u.cfg, j.st, j.ds[n][t]);
  }

  /** The fetch brings the chunk. */
  lemma FetchesJointly(u: Setup, j: Joint, n: nat, t: nat) returns (j': Joint)
    requires Sound(u, j) && Waitless(j, n, t)
    ensures NodeAt(u, j, j', n, CC.StepCall(u.c, j.caches[n], t, true))
  {
    OriginCan(u, j, n, t);
    FetchIsStep(u, j, n, t, Serves(u, j, n, t));
    j' := GoesJointly(u, j, Fetch(n, t, Serves(u, j, n, t)));
  }

  lemma CalmJointly(u: Setup, j: Joint, n: nat, t: nat, good: bool) returns (j': Joint)
    requires Sound(u, j) && n < |j.caches| && CR.Calm(u.c, j.caches[n], t, good)
    ensures NodeAt(u, j, j', n, CC.StepCall(u.c, j.caches[n], t, good))
  {
    if j.caches[n].calls[t].pc.Fetching? {
      var j1 := StopsWaiting(u, j, n, t);
      j' := FetchesJointly(u, j1, n, t);
      NodeAtOn(u, j, j1, j', n, j.caches[n], j'.caches[n]);
    } else {
      j' := MoveJointly(u, j, n, t, good);
    }
  }

  lemma CalmStepJointly(u: Setup, j: Joint, n: nat, s: CC.State) returns (j': Joint)
    requires Sound(u, j) && n < |j.caches| && CR.CalmStep(u.c, j.caches[n], s)
    ensures NodeAt(u, j, j', n, s)
  {
    var t, good :| CR.Calm(u.c, j.caches[n], t, good) && s == CC.StepCall(u.c, j.caches[n], t, good);
    j' := CalmJointly(u, j, n, t, good);
  }

  ghost predicate Attained(u: Setup, j: Joint, n: nat, s: CC.State) { exists j' :: NodeAt(u, j, j', n, s) }

  ghost function AttainedOf(u: Setup, j: Joint, n: nat): CC.State -> bool { s => Attained(u, j, n, s) }

  lemma AttainsNext(u: Setup, j: Joint, n: nat, s: CC.State, s': CC.State)
    requires Attained(u, j, n, s) && CR.CalmStep(u.c, s, s')
    ensures Attained(u, j, n, s')
  {
    var j1 :| NodeAt(u, j, j1, n, s);
    var j' := CalmStepJointly(u, j1, n, s');
    NodeAtOn(u, j, j1, j', n, s, s');
  }

  /** Whatever calm steps lead a node's cache to, the cluster can go on to. */
  lemma CalmlyJointly(u: Setup, j: Joint, n: nat, s: CC.State) returns (j': Joint)
    requires Sound(u, j) && n < |j.caches| && CR.Calmly(u.c, j.caches[n], s)
    ensures NodeAt(u, j, j', n, s)
  {
    Stays(JointNextOf(u), j);
    assert NodeAt(u, j, j, n, j.caches[n]);
    forall a, b | AttainedOf(u, j, n)(a) && CR.CalmOf(u.c)(a, b) ensures AttainedOf(u, j, n)(b) {
      AttainsNext(u, j, n, a, b);
    }
    ReachesKeeps(CR.CalmOf(u.c), AttainedOf(u, j, n), j.caches[n], s);
    j' :| NodeAt(u, j, j', n, s);
  }

  // ---------------------------------------------------------------- exactly which calls

  /** Call `t` of node `n` has returned its chunk, and the cluster's call knows. */
  ghost predicate Returned(u: Setup, j: Joint, n: nat, t: nat) {
    && CanMove(j, n, t) && j.ds[n][t] < |j.st.calls| && CR.HasReturned(u.c, j.caches[n], t)
    && OnGrid(u.cfg, j.st.calls[j.ds[n][t]].id)
    && j.st.progress[j.ds[n][t]].result == Some(Ok(Want(u.cfg, j.st.calls[j.ds[n][t]].id)))
  }

  lemma ReturnsJointly(u: Setup, j: Joint, n: nat, t: nat) returns (j': Joint)
    requires Sound(u, j) && n < |j.caches| && t < |j.caches[n].calls|
    requires !CC.Finished(j.caches[n].calls[t].pc) && !CR.Lost(j.caches[n], t)
    ensures JointLeads(u, j, j') && Returned(u, j', n, t)
  {
    var s := CR.Returns(u.c, j.caches[n], t);
    j' := CalmlyJointly(u, j, n, s);
    SoundMoves(u, j', n, t);
    assert u.path(u.ids(s.calls[t].key)) == s.calls[t].key;
  }

  /** A careful step of the joint machine is none, or one, of a node's cache. */
  ghost predicate CacheStep(c: CC.Config, s: CC.State, s': CC.State) {
    s' == s || exists a :: CC.WellFormed(s) && s' == CC.Step(c, s, a)
  }

  lemma InnerCacheStep(u: Setup, j: Joint, m: nat, a: CC.Action, n: nat)
    requires Sound(u, j) && n < |j.caches|
    ensures n < |DoInner(u, j, m, a).caches| && CacheStep(u.c, j.caches[n], DoInner(u, j, m, a).caches[n])
  {
    if a.Move? && m == n && MayMove(j, n, a.call) {
      assert CC.Step(u.c, j.caches[n], a) == CC.StepCall(u.c, j.caches[n], a.call, a.good);
    }
  }

  predicate MayMove(j: Joint, n: nat, t: nat) { CanMove(j, n, t) && !j.caches[n].calls[t].pc.Fetching? }

  lemma FetchCacheStep(u: Setup, j: Joint, m: nat, t: nat, origin: Http, n: nat)
    requires Sound(u, j) && n < |j.caches|
    ensures var j' := DoFetch(u, j, m, t, origin); n < |j'.caches| && CacheStep(u.c, j.caches[n], j'.caches[n])
  {
    if CanFetch(u, j, m, t, origin) && m == n {
      var d := j.ds[n][t];
      var r := Fetched(j.st.calls[d].asks, j.st.progress[d].events, origin, j.st.calls[d].count);
      FetchIsStep(u, j, n, t, origin);
      assert CC.Step(u.c, j.caches[n], CC.Move(t, r.Ok?)) == CC.StepCall(u.c, j.caches[n], t, r.Ok?);
    }
  }

  lemma CachesStep(u: Setup, j: Joint, a: JointAction, n: nat)
    requires Sound(u, j) && n < |j.caches|
    ensures n < |JointStep(u, j, a).caches| && CacheStep(u.c, j.caches[n], JointStep(u, j, a).caches[n])
  {
    match a
    case Outer(a) =>
    case Inner(m, move) => InnerCacheStep(u, j, m, move, n);
    case Fetch(m, t, origin) => FetchCacheStep(u, j, m, t, origin, n);
  }

  lemma InvSure(c: CC.Config, s: CC.State)
    requires CE.Inv(c, s)
    ensures Crash.SureIsOpen(s)
  {
    forall t | 0 <= t < |s.calls| && Crash.Sure(s.calls[t].pc) ensures s.items[s.calls[t].pc.item].open {
      assert CE.CallGood(c, s, t);
    }
  }

  lemma StepIsHopeless(u: Setup, j: Joint, a: JointAction, n: nat, t: nat)
    requires Sound(u, j) && n < |j.caches| && CR.Hopeless(j.caches[n], t) && !JointCareless(u, j, a)
    ensures Sound(u, JointStep(u, j, a)) && n < |JointStep(u, j, a).caches|
    ensures CR.Hopeless(JointStep(u, j, a).caches[n], t)
  {
    var s := j.caches[n];
    var j' := GoesJointly(u, j, a);
    CachesStep(u, j, a, n);
    InvSure(u.c, s);
    if j'.caches[n] != s {
      var b :| j'.caches[n] == CC.Step(u.c, s, b);
      CR.StepIsHopeless(u.c, s, b, t);
    }
  }

  lemma JointRunLast(u: Setup, j: Joint, acts: seq<JointAction>, before: seq<JointAction>, a: JointAction)
    requires u.cfg.block > 0 && acts == before + [a] && JointCareful(u, j, acts)
    ensures JointCareful(u, j, before) && !JointCareless(u, JointRun(u, j, before), a)
    ensures JointRun(u, j, acts) == JointStep(u, JointRun(u, j, before), a)
  {
    var m := |acts| - 1;
    assert acts[..m] == before && acts[m] == a;
    EverMore(JointCarelessAfter(u, j), acts);
  }

  lemma {:induction false} StaysHopeless(u: Setup, j: Joint, acts: seq<JointAction>, n: nat, t: nat,
                                         more: seq<JointAction>)
    requires u.cfg.block > 0 && JointCareful(u, j, acts + more) && Sound(u, JointRun(u, j, acts))
    requires n < |JointRun(u, j, acts).caches| && CR.Hopeless(JointRun(u, j, acts).caches[n], t)
    ensures Sound(u, JointRun(u, j, acts + more)) && n < |JointRun(u, j, acts + more).caches|
    ensures CR.Hopeless(JointRun(u, j, acts + more).caches[n], t)
    decreases |more|
  {
    if more == [] {
      assert acts + more == acts;
    } else {
      var before, a := more[..|more| - 1], more[|more| - 1];
      JointRunLast(u, j, acts + more, acts + before, a);
      StaysHopeless(u, j, acts, n, t, before);
      StepIsHopeless(u, JointRun(u, j, acts + before), a, n, t);
    }
  }

  /** Some careful continuation of the run makes call `t` of node `n` return its chunk. */
  ghost predicate CanReturn(u: Setup, j: Joint, acts: seq<JointAction>, n: nat, t: nat)
    requires u.cfg.block > 0
  {
    exists more :: ReturnsBy(u, j, acts, n, t, more)
  }

  ghost predicate ReturnsBy(u: Setup, j: Joint, acts: seq<JointAction>, n: nat, t: nat, more: seq<JointAction>)
    requires u.cfg.block > 0
  {
    JointCareful(u, j, acts + more) && Returned(u, JointRun(u, j, acts + more), n, t)
  }

  lemma CanReturnExactly(u: Setup, j: Joint, acts: seq<JointAction>, n: nat, t: nat)
    requires u.cfg.block > 0 && JointCareful(u, j, acts) && Sound(u, JointRun(u, j, acts))
    requires n < |JointRun(u, j, acts).caches| && t < |JointRun(u, j, acts).caches[n].calls|
    requires !CC.Finished(JointRun(u, j, acts).caches[n].calls[t].pc)
    ensures CanReturn(u, j, acts, n, t) <==> !CR.Lost(JointRun(u, j, acts).caches[n], t)
  {
    var e := JointRun(u, j, acts);
    if CR.Lost(e.caches[n], t) {
      forall more ensures !ReturnsBy(u, j, acts, n, t, more) {
        if JointCareful(u, j, acts + more) { StaysHopeless(u, j, acts, n, t, more); }
      }
    } else {
      var e' := ReturnsJointly(u, e, n, t);
      var js :| Path(JointNextOf(u), js) && js[0] == e && js[|js| - 1] == e';
      var more := JointPathIsRun(u, j, acts, js);
      assert ReturnsBy(u, j, acts, n, t, more);
    }
  }

  /** In every careful run of the cluster with the concurrent caches inside: a call of a node that is not
      finished can come to return its chunk, through its own fetch and to the cluster's knowledge, if and
      only if the item it is on, if any, has not been dropped. */
  lemma JointReturnsUnlessDropped(u: Setup, disks: seq<CC.State>, acts: seq<JointAction>, n: nat, t: nat)
    requires Proper(u) && (forall m :: 0 <= m < |disks| ==> CE.Start(u.c, disks[m]))
    requires JointCareful(u, JointInit(disks), acts) && n < |JointRun(u, JointInit(disks), acts).caches|
    requires var s := JointRun(u, JointInit(disks), acts).caches[n];
             t < |s.calls| && !CC.Finished(s.calls[t].pc)
    ensures var s := JointRun(u, JointInit(disks), acts).caches[n];
            CC.WellFormed(s) && (CanReturn(u, JointInit(disks), acts, n, t) <==> !CR.Lost(s, t))
  {
    var past := JointRunFollowed(u, disks, acts);
    ClusterServes.RunIsGood(u.cfg, |disks|, past);
    CanReturnExactly(u, JointInit(disks), acts, n, t);
  }
}
