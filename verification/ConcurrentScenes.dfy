/** How a file opened once too often comes to be read as zeros, scene by scene, in the views of the
    calls that play a part in it. */
module ConcurrentScenes {
  import opened Common
  import opened ConcurrentCache
  import opened ConcurrentStages

  // ---------------------------------------------------------------- several moves in a view

  lemma Moves(c: Config, k: Key, n: nat, v: View, t: nat, v1: View, t1: nat, v2: View)
    requires Moved(c, k, n, v, t) == Some(v1) && Moved(c, k, n, v1, t1) == Some(v2)
    ensures Shows(c, k, n, v, v2)
  {
    Shown(c, k, n, v, MoveIt(t), v1);
    Shown(c, k, n, v1, MoveIt(t1), v2);
    ShowsOn(c, k, n, v, v1, v2);
  }

  /** Two misses, under the cache's lock the second time. */
  lemma Misses(c: Config, k: Key, n: nat, v: View, t: nat)
    requires t in v.at && v.at[t] == Lookup && v.cached.None? && v.lock.None?
    ensures Shows(c, k, n, v, To(v, t, Opening).(lock := Some(t)))
  {
    var v1 := To(v, t, AwaitLock);
    var v2 := To(v1, t, LookupLocked).(lock := Some(t));
    var v3 := To(v, t, Opening).(lock := Some(t));
    Moves(c, k, n, v, t, v1, t, v2);
    assert To(v2, t, Opening) == v3;
    Shown(c, k, n, v2, MoveIt(t), v3);
    ShowsOn(c, k, n, v, v2, v3);
  }

  lemma Inserts(c: Config, k: Key, n: nat, v: View, t: nat, i: nat)
    requires t in v.at && v.at[t] == Inserting(i) && i in v.on
    ensures Shows(c, k, n, v,
                  With(To(v, t, AwaitRead(i)), i, v.on[i].(offered := true)).(cached := Some(i), lock := None))
  {
    var v1 := With(To(v, t, Releasing(i)), i, v.on[i].(offered := true)).(cached := Some(i));
    var v2 := With(To(v, t, AwaitRead(i)), i, v.on[i].(offered := true)).(cached := Some(i), lock := None);
    assert To(v1, t, AwaitRead(i)).(lock := None) == v2;
    Moves(c, k, n, v, t, v1, t, v2);
  }

  /** An item nobody holds, over a file of the wrong length. */
  predicate Hungry(c: Config, k: Key, v: View, i: nat) {
    i in v.on && v.on[i].open && v.on[i].writer.None? && v.on[i].readers == {} && |v.content| != |c.chunk(k)|
  }

  function Held(c: Config, k: Key, v: View, t: nat, i: nat): View
    requires i in v.on
  {
    With(To(v, t, Truncating(i, c.chunk(k))), i, v.on[i].(writer := Some(t)))
  }

  /** Under the item's lock the call looks again, and fetches. */
  lemma Fetches(c: Config, k: Key, n: nat, v: View, t: nat, i: nat)
    requires t in v.at && v.at[t] == AwaitWrite(i) && Hungry(c, k, v, i)
    ensures Shows(c, k, n, v, Held(c, k, v, t, i))
  {
    var v1 := With(To(v, t, Rechecking(i)), i, v.on[i].(writer := Some(t)));
    var v2 := To(v1, t, Fetching(i));
    Moves(c, k, n, v, t, v1, t, v2);
    assert To(v2, t, Truncating(i, c.chunk(k))) == Held(c, k, v, t, i);
    Shown(c, k, n, v2, MoveIt(t), Held(c, k, v, t, i));
    ShowsOn(c, k, n, v, v2, Held(c, k, v, t, i));
  }

  /** The file has the wrong length: the call queues for the item's lock. */
  lemma FindsShort(c: Config, k: Key, n: nat, v: View, t: nat, i: nat)
    requires t in v.at && v.at[t] == AwaitRead(i) && Hungry(c, k, v, i)
    ensures Shows(c, k, n, v, To(v, t, AwaitWrite(i)))
  {
    var v1 := With(To(v, t, Checking(i)), i, Taken(v.on[i], t));
    var v2 := To(v, t, AwaitWrite(i));
    assert Let(Taken(v.on[i], t), t) == v.on[i];
    assert With(To(v1, t, AwaitWrite(i)), i, v.on[i]) == v2;
    Moves(c, k, n, v, t, v1, t, v2);
  }

  lemma ComesToFetch(c: Config, k: Key, n: nat, v: View, t: nat, i: nat)
    requires t in v.at && v.at[t] == AwaitRead(i) && Hungry(c, k, v, i)
    ensures Shows(c, k, n, v, Held(c, k, v, t, i))
  {
    var v1 := To(v, t, AwaitWrite(i));
    FindsShort(c, k, n, v, t, i);
    Fetches(c, k, n, v1, t, i);
    assert Held(c, k, v1, t, i) == Held(c, k, v, t, i);
    ShowsOn(c, k, n, v, v1, Held(c, k, v, t, i));
  }

  lemma Measures(c: Config, k: Key, n: nat, v: View, t: nat, i: nat)
    requires t in v.at && v.at[t] == AwaitReread(i) && i in v.on && v.on[i].open && v.on[i].writer.None?
    ensures Shows(c, k, n, v, With(To(v, t, Reading(i, |v.content|)), i, Taken(v.on[i], t)))
  {
    var v1 := With(To(v, t, Measuring(i)), i, Taken(v.on[i], t));
    var v2 := With(To(v, t, Reading(i, |v.content|)), i, Taken(v.on[i], t));
    assert To(v1, t, Reading(i, |v.content|)) == v2;
    Moves(c, k, n, v, t, v1, t, v2);
  }

  lemma Truncates(c: Config, k: Key, n: nat, v: View, t: nat, i: nat)
    requires t in v.at && v.at[t] == Truncating(i, c.chunk(k)) && i in v.on
    ensures Shows(c, k, n, v, To(v, t, Writing(i, c.chunk(k))).(content := []))
  {
    Shown(c, k, n, v, MoveIt(t), To(v, t, Writing(i, c.chunk(k))).(content := []));
  }

  /** The view after a fill through item `i`. */
  function Full(c: Config, k: Key, v: View, t: nat, i: nat): View
    requires i in v.on
  {
    With(To(v, t, AwaitReread(i)), i, Filled(v.on[i], |c.chunk(k)|)).(content := Zeros(v.on[i].pos) + c.chunk(k))
  }

  lemma Writes(c: Config, k: Key, n: nat, v: View, t: nat, i: nat)
    requires t in v.at && v.at[t] == Writing(i, c.chunk(k)) && i in v.on && v.content == [] && c.chunk(k) != []
    ensures Shows(c, k, n, v, Full(c, k, v, t, i))
  {
    Shown(c, k, n, v, MoveIt(t), Full(c, k, v, t, i));
  }

  // ---------------------------------------------------------------- how zeros come to be returned

  function On(k: Key, n: nat, pos: nat, fills: nat, writer: Option<nat>): Item {
    Item(k, n, pos, true, true, writer, {}, fills)
  }

  /** Call `u` is about to write through item `i`; call `t` has opened the file again as item `j`. */
  function Reopened(c: Config, k: Key, n: nat, calls: nat, items: nat, t: nat, j: nat, u: nat, i: nat,
                    prior: Item): View {
    View([], None, Some(t), calls, items,
         map[t := Inserting(j), u := Writing(i, c.chunk(k))], map[j := Fresh(k, n, false), i := prior])
  }

  /** Call `t` has fetched for item `j` as `u` has for item `i`. */
  function Rivals(c: Config, k: Key, n: nat, calls: nat, items: nat, t: nat, j: nat, u: nat, i: nat,
                  prior: Item): View {
    View([], Some(j), None, calls, items,
         map[t := Truncating(j, c.chunk(k)), u := Writing(i, c.chunk(k))],
         map[j := On(k, n, 0, 0, Some(t)), i := prior])
  }

  /** Call `t` is about to truncate through item `j`, on which call `x` waits. */
  function Waiting(c: Config, k: Key, n: nat, x: nat, items: nat, t: nat, j: nat): View {
    View(c.chunk(k), None, None, x + 1, items,
         map[t := Truncating(j, c.chunk(k)), x := AwaitRead(j)], map[j := On(k, n, 0, 0, Some(t))])
  }

  /** The next call waits on item `l`, opened while the file was whole. */
  function Joined(c: Config, k: Key, n: nat, x: nat, l: nat, t: nat, j: nat): View {
    View(c.chunk(k), Some(l), None, x + 2, l + 1,
         map[t := Truncating(j, c.chunk(k)), x := AwaitRead(j), x + 1 := AwaitRead(l)],
         map[j := On(k, n, 0, 0, Some(t)), l := On(k, n, 0, 0, None)])
  }

  /** Item `j` has been filled; call `w` is about to truncate through item `l`. */
  function Poised(c: Config, k: Key, n: nat, x: nat, w: nat, j: nat, l: nat): View {
    View(c.chunk(k), Some(l), None, w + 1, l + 1,
         map[x := AwaitRead(j), w := Truncating(l, c.chunk(k))],
         map[j := On(k, n, |c.chunk(k)|, 1, None), l := On(k, n, 0, 0, Some(w))])
  }

  /** Call `w` has filled item `l`; call `x` is about to truncate through item `j` again. */
  function Refilled(c: Config, k: Key, n: nat, x: nat, w: nat, j: nat, l: nat): View {
    var v := To(Poised(c, k, n, x, w, j, l), w, Writing(l, c.chunk(k))).(content := []);
    Full(c, k, Held(c, k, v, x, j), w, l)
  }

  /** Call `w` has measured the file, and call `x` written the chunk beyond where it was. */
  function Rewritten(c: Config, k: Key, n: nat, x: nat, w: nat, j: nat, l: nat): View {
    var chunk, v := c.chunk(k), Refilled(c, k, n, x, w, j, l);
    var v1 := With(To(v, w, Reading(l, |chunk|)), l, Taken(v.on[l], w));
    Full(c, k, To(v1, x, Writing(j, chunk)).(content := []), x, j)
  }

  /** Call `t` inserts item `j` and fetches for it. */
  lemma FirstScene(c: Config, k: Key, n: nat, calls: nat, items: nat, t: nat, j: nat, u: nat, i: nat, prior: Item)
    requires t != u && i != j && c.chunk(k) != []
    ensures Shows(c, k, n, Reopened(c, k, n, calls, items, t, j, u, i, prior),
                  Rivals(c, k, n, calls, items, t, j, u, i, prior))
  {
    var v := Reopened(c, k, n, calls, items, t, j, u, i, prior);
    var v1 := With(To(v, t, AwaitRead(j)), j, v.on[j].(offered := true)).(cached := Some(j), lock := None);
    Inserts(c, k, n, v, t, j);
    ComesToFetch(c, k, n, v1, t, j);
    assert Held(c, k, v1, t, j) == Rivals(c, k, n, calls, items, t, j, u, i, prior);
    ShowsOn(c, k, n, v, v1, Held(c, k, v1, t, j));
  }

  /** A new call finds item `j`, which is evicted then; and call `u` writes the whole chunk. */
  lemma SecondScene(c: Config, k: Key, n: nat, calls: nat, items: nat, t: nat, j: nat, u: nat, i: nat, prior: Item)
    requires t < calls && u < calls && t != u && i != j && c.chunk(k) != [] && prior.pos == 0
    ensures Shows(c, k, n, Rivals(c, k, n, calls, items, t, j, u, i, prior), Waiting(c, k, n, calls, items, t, j))
  {
    var chunk, v := c.chunk(k), Rivals(c, k, n, calls, items, t, j, u, i, prior);
    var v1 := v.(at := v.at[calls := Lookup], calls := calls + 1);
    var v2 := v1.(at := v.at[calls := AwaitRead(j)]);
    var v3 := v2.(cached := None);
    var v4 := Full(c, k, v3, u, i);
    Shown(c, k, n, v, BeginIt, v1);
    assert To(v1, calls, AwaitRead(j)) == v2;
    Shown(c, k, n, v1, MoveIt(calls), v2);
    Shown(c, k, n, v2, EvictIt, v3);
    Writes(c, k, n, v3, u, i);
    assert Zeros(0) + chunk == chunk;
    ShownLess(c, k, n, v4, Waiting(c, k, n, calls, items, t, j));
    ShowsOn(c, k, n, v, v1, v2);
    ShowsOn(c, k, n, v, v2, v3);
    ShowsOn(c, k, n, v, v3, v4);
    ShowsOn(c, k, n, v, v4, Waiting(c, k, n, calls, items, t, j));
  }

  /** The file being whole, another call opens it once more, as item `l`. */
  lemma ThirdScene(c: Config, k: Key, n: nat, x: nat, l: nat, t: nat, j: nat)
    requires t < x && j < l
    ensures Shows(c, k, n, Waiting(c, k, n, x, l, t, j), Joined(c, k, n, x, l, t, j))
  {
    var w, v, v4 := x + 1, Waiting(c, k, n, x, l, t, j), Joined(c, k, n, x, l, t, j);
    var v1 := To(v, w, Lookup).(calls := x + 2);
    var v2 := To(v1, w, Opening).(lock := Some(w));
    var v3 := With(To(v2, w, Inserting(l)), l, Fresh(k, n, false)).(items := l + 1);
    Shown(c, k, n, v, BeginIt, v1);
    Misses(c, k, n, v1, w);
    Shown(c, k, n, v2, MoveIt(w), v3);
    Inserts(c, k, n, v3, w, l);
    assert With(To(v3, w, AwaitRead(l)), l, v3.on[l].(offered := true)).(cached := Some(l), lock := None) == v4;
    ShowsOn(c, k, n, v, v1, v2);
    ShowsOn(c, k, n, v, v2, v3);
    ShowsOn(c, k, n, v, v3, v4);
  }

  /** Call `t` truncates, so item `l` is found short as well; then `t` writes, and has filled `j`. */
  lemma FourthScene(c: Config, k: Key, n: nat, x: nat, l: nat, t: nat, j: nat)
    requires t < x && j < l && c.chunk(k) != []
    ensures Shows(c, k, n, Joined(c, k, n, x, l, t, j), Poised(c, k, n, x, x + 1, j, l))
  {
    var chunk, w, v := c.chunk(k), x + 1, Joined(c, k, n, x, l, t, j);
    var v1 := To(v, t, Writing(j, chunk)).(content := []);
    var v2 := Held(c, k, v1, w, l);
    var v3 := Full(c, k, v2, t, j);
    Truncates(c, k, n, v, t, j);
    ComesToFetch(c, k, n, v1, w, l);
    Writes(c, k, n, v2, t, j);
    assert Zeros(0) + chunk == chunk;
    ShownLess(c, k, n, v3, Poised(c, k, n, x, w, j, l));
    ShowsOn(c, k, n, v, v1, v2);
    ShowsOn(c, k, n, v, v2, v3);
    ShowsOn(c, k, n, v, v3, Poised(c, k, n, x, w, j, l));
  }

  /** Call `w` truncates, so the call on `j` fetches again; then `w` writes. */
  lemma FifthScene(c: Config, k: Key, n: nat, x: nat, w: nat, j: nat, l: nat)
    requires x < w && j < l && c.chunk(k) != []
    ensures Shows(c, k, n, Poised(c, k, n, x, w, j, l), Refilled(c, k, n, x, w, j, l))
  {
    var chunk, v := c.chunk(k), Poised(c, k, n, x, w, j, l);
    var v1 := To(v, w, Writing(l, chunk)).(content := []);
    var v2 := Held(c, k, v1, x, j);
    Truncates(c, k, n, v, w, l);
    ComesToFetch(c, k, n, v1, x, j);
    Writes(c, k, n, v2, w, l);
    ShowsOn(c, k, n, v, v1, v2);
    ShowsOn(c, k, n, v, v2, Refilled(c, k, n, x, w, j, l));
  }

  /** Call `w` measures the file; then the call on `j` rewrites it, from where item `j`'s handle stands. */
  lemma SixthScene(c: Config, k: Key, n: nat, x: nat, w: nat, j: nat, l: nat)
    requires x < w && j < l && c.chunk(k) != []
    ensures Shows(c, k, n, Refilled(c, k, n, x, w, j, l), Rewritten(c, k, n, x, w, j, l))
  {
    var chunk, v := c.chunk(k), Refilled(c, k, n, x, w, j, l);
    assert Zeros(0) + chunk == chunk;
    var v1 := With(To(v, w, Reading(l, |chunk|)), l, Taken(v.on[l], w));
    var v2 := To(v1, x, Writing(j, chunk)).(content := []);
    Measures(c, k, n, v, w, l);
    Truncates(c, k, n, v1, x, j);
    Writes(c, k, n, v2, x, j);
    ShowsOn(c, k, n, v, v1, v2);
    ShowsOn(c, k, n, v, v2, Rewritten(c, k, n, x, w, j, l));
  }

  /** And call `w` reads. */
  lemma LastScene(c: Config, k: Key, n: nat, x: nat, w: nat, j: nat, l: nat) returns (end: View)
    requires x < w && j < l && c.chunk(k) != []
    ensures Shows(c, k, n, Rewritten(c, k, n, x, w, j, l), end)
    ensures w in end.at && end.at[w] == Returned(Zeros(|c.chunk(k)|))
  {
    var chunk, v := c.chunk(k), Rewritten(c, k, n, x, w, j, l);
    end := With(To(v, w, Returned(Zeros(|chunk|))), l, Let(v.on[l], w));
    assert (Zeros(|chunk|) + chunk)[..|chunk|] == Zeros(|chunk|);
    Shown(c, k, n, v, MoveIt(w), end);
  }

  /** From the second opening on, a call can come to return zeros. */
  lemma ReopenedGoesWrong(c: Config, k: Key, n: nat, calls: nat, items: nat, t: nat, j: nat, u: nat, i: nat,
                          prior: Item)
      returns (end: View)
    requires t < calls && u < calls && t != u && i != j && j < items && c.chunk(k) != [] && prior.pos == 0
    ensures Shows(c, k, n, Reopened(c, k, n, calls, items, t, j, u, i, prior), end)
    ensures calls + 1 in end.at && end.at[calls + 1] == Returned(Zeros(|c.chunk(k)|))
  {
    var x, w, l := calls, calls + 1, items;
    var v := Reopened(c, k, n, calls, items, t, j, u, i, prior);
    FirstScene(c, k, n, calls, items, t, j, u, i, prior);
    SecondScene(c, k, n, calls, items, t, j, u, i, prior);
    ShowsOn(c, k, n, v, Rivals(c, k, n, calls, items, t, j, u, i, prior), Waiting(c, k, n, x, l, t, j));
    ThirdScene(c, k, n, x, l, t, j);
    ShowsOn(c, k, n, v, Waiting(c, k, n, x, l, t, j), Joined(c, k, n, x, l, t, j));
    FourthScene(c, k, n, x, l, t, j);
    ShowsOn(c, k, n, v, Joined(c, k, n, x, l, t, j), Poised(c, k, n, x, w, j, l));
    FifthScene(c, k, n, x, w, j, l);
    ShowsOn(c, k, n, v, Poised(c, k, n, x, w, j, l), Refilled(c, k, n, x, w, j, l));
    SixthScene(c, k, n, x, w, j, l);
    ShowsOn(c, k, n, v, Refilled(c, k, n, x, w, j, l), Rewritten(c, k, n, x, w, j, l));
    end := LastScene(c, k, n, x, w, j, l);
    ShowsOn(c, k, n, v, Rewritten(c, k, n, x, w, j, l), end);
  }
}
