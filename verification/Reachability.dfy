/** Runs in general: what some step of a run does, and where steps of one kind lead. */
module Reachability {

  /** Some action of a run is such that `q` holds of what came before it and of itself. */
  ghost predicate Ever<A>(q: (seq<A>, A) -> bool, acts: seq<A>) {
    exists n :: 0 <= n < |acts| && q(acts[..n], acts[n])
  }

  lemma EverMore<A>(q: (seq<A>, A) -> bool, acts: seq<A>)
    requires acts != []
    ensures var m := |acts| - 1; Ever(q, acts) <==> Ever(q, acts[..m]) || q(acts[..m], acts[m])
  {
    var m := |acts| - 1;
    assert forall n :: 0 <= n < m ==> acts[..m][..n] == acts[..n] && acts[..m][n] == acts[n];
    if Ever(q, acts[..m]) {
      var n :| 0 <= n < m && q(acts[..m][..n], acts[..m][n]);
      assert q(acts[..n], acts[n]);
    }
    if Ever(q, acts) {
      var n :| 0 <= n < |acts| && q(acts[..n], acts[n]);
      if n < m { assert q(acts[..m][..n], acts[..m][n]); }
    }
  }

  ghost predicate Path<S>(next: (S, S) -> bool, ss: seq<S>) {
    ss != [] && forall n :: 0 < n < |ss| ==> next(ss[n - 1], ss[n])
  }

  ghost predicate Reaches<S(!new)>(next: (S, S) -> bool, s: S, s': S) {
    exists ss: seq<S> :: Path(next, ss) && ss[0] == s && ss[|ss| - 1] == s'
  }

  lemma Stays<S(!new)>(next: (S, S) -> bool, s: S)
    ensures Reaches(next, s, s)
  {
    assert Path(next, [s]);
  }

  lemma Goes<S(!new)>(next: (S, S) -> bool, s: S, s': S)
    requires next(s, s')
    ensures Reaches(next, s, s')
  {
    assert Path(next, [s, s']);
  }

  lemma GoesOn<S(!new)>(next: (S, S) -> bool, s: S, mid: S, end: S)
    requires Reaches(next, s, mid) && Reaches(next, mid, end)
    ensures Reaches(next, s, end)
  {
    var ss: seq<S> :| Path(next, ss) && ss[0] == s && ss[|ss| - 1] == mid;
    var tt: seq<S> :| Path(next, tt) && tt[0] == mid && tt[|tt| - 1] == end;
    var all := ss + tt[1..];
    forall n | 0 < n < |all| ensures next(all[n - 1], all[n]) {
      if n >= |ss| { assert all[n] == tt[n - |ss| + 1] && all[n - 1] == tt[n - |ss|]; }
    }
    assert Path(next, all) && all[0] == s && all[|all| - 1] == end;
  }

  lemma {:induction false} PathKeeps<S(!new)>(next: (S, S) -> bool, keeps: S -> bool, ss: seq<S>)
    requires Path(next, ss) && keeps(ss[0]) && forall a, b :: keeps(a) && next(a, b) ==> keeps(b)
    ensures keeps(ss[|ss| - 1])
    decreases |ss|
  {
    if |ss| > 1 {
      var m := |ss| - 1;
      assert Path(next, ss[..m]);
      PathKeeps(next, keeps, ss[..m]);
      assert next(ss[m - 1], ss[m]);
    }
  }

  /** What every step keeps holds wherever the steps lead. */
  lemma ReachesKeeps<S(!new)>(next: (S, S) -> bool, keeps: S -> bool, s: S, s': S)
    requires Reaches(next, s, s') && keeps(s) && forall a, b :: keeps(a) && next(a, b) ==> keeps(b)
    ensures keeps(s')
  {
    var ss: seq<S> :| Path(next, ss) && ss[0] == s && ss[|ss| - 1] == s';
    PathKeeps(next, keeps, ss);
  }
}
