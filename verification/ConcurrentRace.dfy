/** The one kind of step that costs GetOrCreate its exactness: opening again a file that a call on an
    evicted item is using and has not yet made whole. `ConcurrentExact.ReturnsExact` says that runs
    without such a step are exact; here is the other half, and the two together. */
module ConcurrentRace {
  import opened Common
  import opened ConcurrentCache
  import opened ConcurrentLocks
  import opened ConcurrentExact
  import opened ConcurrentStages
  import opened ConcurrentScenes
  import opened ConcurrentZeros
  import ConcurrentCrash

  // ---------------------------------------------------------------- the file just opened again

  /** What a call on the item of a file that is not whole may be about. */
  predicate Eager(c: Config, k: Key, i: nat, content: seq<byte>, call: Call) {
    && call.key == k
    && var pc := call.pc;
       || pc == AwaitRead(i) || pc == Checking(i) || pc == AwaitWrite(i) || pc == Rechecking(i) || pc == Fetching(i)
       || pc == Truncating(i, c.chunk(k)) || (pc == Writing(i, c.chunk(k)) && content == [])
  }

  predicate IsOn(pc: Pc, i: nat) { (HasItem(pc) || pc.Crashed?) && pc.item == i }

  /** Call `t` has just opened, as item `j`, the file `n` of key `k` that item `i` has open. */
  ghost predicate Again(c: Config, s: State, k: Key, n: nat, t: nat, j: nat, i: nat) {
    && WellFormed(s) && Locks(s) && k in s.paths && s.paths[k] == n && s.inodes[n].key == k
    && |s.inodes[n].content| != |c.chunk(k)| && k !in s.entries
    && s.lock == Some(t) && t < |s.calls| && s.calls[t] == Call(k, Inserting(j))
    && j < |s.items| && s.items[j] == Fresh(k, n, false)
    && i < |s.items| && i != j && s.items[i].key == k && s.items[i].inode == n && s.items[i].open && s.items[i].pos == 0
    && forall y :: 0 <= y < |s.calls| && IsOn(s.calls[y].pc, i) ==> Eager(c, k, i, s.inodes[n].content, s.calls[y])
  }

  /** Nobody who knows the file to be whole is on an item of a file that is not. */
  lemma UserIsEager(c: Config, s: State, k: Key, n: nat, t: nat, i: nat, y: nat)
    requires Inv(c, s) && t < |s.calls| && s.calls[t] == Call(k, Opening) && k in s.paths && s.paths[k] == n
    requires |s.inodes[n].content| != |c.chunk(k)| && i < |s.items| && s.items[i].inode == n
    requires y < |s.calls| && IsOn(s.calls[y].pc, i)
    ensures Eager(c, k, i, s.inodes[n].content, s.calls[y])
  {
    assert CallGood(c, s, y);
    assert LockHeld(s.calls[y].pc) ==> y == t;
  }

  lemma UsedItem(c: Config, s: State, k: Key, n: nat, i: nat, u: nat)
    requires Inv(c, s) && k in s.paths && s.paths[k] == n && |s.inodes[n].content| != |c.chunk(k)|
    requires Uses(s, u, i) && i < |s.items| && s.items[i].inode == n
    ensures s.items[i].key == k && s.items[i].open && s.items[i].pos == 0
  {
    assert Live(s, i) && ItemGood(c, s, i);
  }

  lemma OpensAgain(c: Config, s: State, t: nat) returns (k: Key, n: nat, j: nat, i: nat, u: nat)
    requires Inv(c, s) && Careless(c, s, Move(t, true))
    ensures k == s.calls[t].key && Again(c, StepOpening(s, t, true), k, n, t, j, i)
    ensures Uses(StepOpening(s, t, true), u, i) && u != t
  {
    k, j := s.calls[t].key, |s.items|;
    n := s.paths[k];
    u :| u < |s.calls| && HasItem(s.calls[u].pc) && s.items[s.calls[u].pc.item].inode == n;
    i := s.calls[u].pc.item;
    UsedItem(c, s, k, n, i, u);
    forall y | 0 <= y < |s.calls| && IsOn(s.calls[y].pc, i) ensures Eager(c, k, i, s.inodes[n].content, s.calls[y]) {
      UserIsEager(c, s, k, n, t, i, y);
    }
    CreateKeepsLocks(c, s, t, true);
    assert CallGood(c, s, t);
  }

  // ---------------------------------------------------------------- bringing a call to its write

  function AgainView(s: State, n: nat, t: nat, j: nat, i: nat, u: nat): View
    requires n < |s.inodes| && t < |s.calls| && u < |s.calls| && i < |s.items| && j < |s.items|
  {
    View(s.inodes[n].content, None, Some(t), |s.calls|, |s.items|,
         map[t := Inserting(j), u := s.calls[u].pc], map[j := s.items[j], i := s.items[i]])
  }

  lemma AgainSeen(c: Config, s: State, k: Key, n: nat, t: nat, j: nat, i: nat, u: nat)
    requires Again(c, s, k, n, t, j, i) && Uses(s, u, i) && u != t
    ensures Sees(s, k, n, AgainView(s, n, t, j, i, u))
  {
    assert IsOn(s.calls[u].pc, i);
  }

  /** A reader has only looked at the length; it goes to queue for writing. */
  lemma ReaderLeaves(c: Config, s: State, k: Key, n: nat, t: nat, j: nat, i: nat, y: nat) returns (s': State)
    requires Again(c, s, k, n, t, j, i) && y in s.items[i].readers
    ensures y < |s.calls| && s' == Goto(LetRead(s, i, y), y, AwaitWrite(i)) && Leads(c, s, s')
    ensures Again(c, s', k, n, t, j, i)
  {
    assert ItemLockSound(s, i);
    assert IsOn(s.calls[y].pc, i);
    s' := Step(c, s, Move(y, true));
    CheckingKeepsLocks(c, s, y, true);
    Once(c, s, Move(y, true));
  }

  lemma {:induction false} ReadersLeave(c: Config, s: State, k: Key, n: nat, t: nat, j: nat, i: nat, u: nat)
      returns (s': State)
    requires Again(c, s, k, n, t, j, i) && Uses(s, u, i) && u != t
    ensures Leads(c, s, s') && Again(c, s', k, n, t, j, i) && Uses(s', u, i)
    ensures s'.items[i].readers == {} && s'.items[i].writer == s.items[i].writer
    decreases s.items[i].readers
  {
    if y :| y in s.items[i].readers {
      var s1 := ReaderLeaves(c, s, k, n, t, j, i, y);
      assert Uses(s1, u, i);
      s' := ReadersLeave(c, s1, k, n, t, j, i, u);
      OnAndOn(c, s, s1, s');
    } else {
      s' := s;
      Nowhere(c, s);
    }
  }

  /** About to write from the start through item `i`. */
  ghost predicate Ripe(c: Config, k: Key, n: nat, t: nat, j: nat, u: nat, i: nat, v: View) {
    && u < v.calls && t < v.calls && u != t && i != j && j < v.items
    && exists prior: Item :: prior.pos == 0 && v == Reopened(c, k, n, v.calls, v.items, t, j, u, i, prior)
  }

  lemma TruncatesToRipe(c: Config, k: Key, n: nat, t: nat, j: nat, u: nat, i: nat, v: View) returns (v': View)
    requires u < v.calls && t < v.calls && u != t && i != j && j < v.items && v.cached == None && v.lock == Some(t)
    requires v.at == map[t := Inserting(j), u := Truncating(i, c.chunk(k))]
    requires i in v.on && v.on[i].pos == 0 && v.on == map[j := Fresh(k, n, false), i := v.on[i]]
    ensures Shows(c, k, n, v, v') && Ripe(c, k, n, t, j, u, i, v')
  {
    Truncates(c, k, n, v, u, i);
    v' := To(v, u, Writing(i, c.chunk(k))).(content := []);
    assert v' == Reopened(c, k, n, v.calls, v.items, t, j, u, i, v.on[i]);
  }

  /** A writer at any point of its section goes on to its write. */
  lemma WriterRipens(c: Config, k: Key, n: nat, t: nat, j: nat, u: nat, i: nat, v: View) returns (v': View)
    requires u < v.calls && t < v.calls && u != t && i != j && j < v.items && v.cached == None && v.lock == Some(t)
    requires |v.content| != |c.chunk(k)| && u in v.at && v.at == map[t := Inserting(j), u := v.at[u]]
    requires i in v.on && v.on[i].pos == 0 && v.on[i].open && v.on == map[j := Fresh(k, n, false), i := v.on[i]]
    requires v.at[u] == Rechecking(i) || v.at[u] == Fetching(i) || v.at[u] == Truncating(i, c.chunk(k))
             || (v.at[u] == Writing(i, c.chunk(k)) && v.content == [])
    ensures Shows(c, k, n, v, v') && Ripe(c, k, n, t, j, u, i, v')
    decreases if v.at[u].Rechecking? then 2 else if v.at[u].Fetching? then 1 else 0
  {
    if v.at[u].Writing? {
      v' := v;
      ShownLess(c, k, n, v, v);
      assert v == Reopened(c, k, n, v.calls, v.items, t, j, u, i, v.on[i]);
    } else if v.at[u].Truncating? {
      v' := TruncatesToRipe(c, k, n, t, j, u, i, v);
    } else {
      var v1 := To(v, u, if v.at[u].Rechecking? then Fetching(i) else Truncating(i, c.chunk(k)));
      Shown(c, k, n, v, MoveIt(u), v1);
      v' := WriterRipens(c, k, n, t, j, u, i, v1);
      ShowsOn(c, k, n, v, v1, v');
    }
  }

  /** With the item's lock free, a call that waits for it gets there too. */
  lemma WaiterRipens(c: Config, k: Key, n: nat, t: nat, j: nat, u: nat, i: nat, v: View) returns (v': View)
    requires u < v.calls && t < v.calls && u != t && i != j && j < v.items && v.cached == None && v.lock == Some(t)
    requires u in v.at && v.at == map[t := Inserting(j), u := v.at[u]] && Hungry(c, k, v, i)
    requires v.on[i].pos == 0 && v.on == map[j := Fresh(k, n, false), i := v.on[i]]
    requires v.at[u] == AwaitRead(i) || v.at[u] == AwaitWrite(i)
    ensures Shows(c, k, n, v, v') && Ripe(c, k, n, t, j, u, i, v')
  {
    if v.at[u].AwaitRead? { ComesToFetch(c, k, n, v, u, i); } else { Fetches(c, k, n, v, u, i); }
    var v1 := Held(c, k, v, u, i);
    v' := TruncatesToRipe(c, k, n, t, j, u, i, v1);
    ShowsOn(c, k, n, v, v1, v');
  }

  lemma WriterGoesOn(c: Config, s: State, k: Key, n: nat, t: nat, j: nat, i: nat) returns (s': State, u: nat, v: View)
    requires Again(c, s, k, n, t, j, i) && s.items[i].writer.Some?
    ensures Leads(c, s, s') && Sees(s', k, n, v) && Ripe(c, k, n, t, j, u, i, v)
  {
    u := s.items[i].writer.value;
    assert ItemLockSound(s, i);
    assert IsOn(s.calls[u].pc, i) && Uses(s, u, i);
    AgainSeen(c, s, k, n, t, j, i, u);
    v := WriterRipens(c, k, n, t, j, u, i, AgainView(s, n, t, j, i, u));
    s' := ShownComes(c, s, k, n, AgainView(s, n, t, j, i, u), v);
  }

  lemma WaiterGoesOn(c: Config, s: State, k: Key, n: nat, t: nat, j: nat, i: nat, u: nat) returns (s': State, v: View)
    requires Again(c, s, k, n, t, j, i) && Uses(s, u, i) && u != t && s.items[i].writer.None?
    requires s.items[i].readers == {}
    ensures Leads(c, s, s') && Sees(s', k, n, v) && Ripe(c, k, n, t, j, u, i, v)
  {
    assert ItemLockSound(s, i);
    assert IsOn(s.calls[u].pc, i);
    AgainSeen(c, s, k, n, t, j, i, u);
    v := WaiterRipens(c, k, n, t, j, u, i, AgainView(s, n, t, j, i, u));
    s' := ShownComes(c, s, k, n, AgainView(s, n, t, j, i, u), v);
  }

  lemma Ripens(c: Config, s: State, k: Key, n: nat, t: nat, j: nat, i: nat, u: nat) returns (s': State, x: nat, v: View)
    requires Again(c, s, k, n, t, j, i) && Uses(s, u, i) && u != t
    ensures Leads(c, s, s') && Sees(s', k, n, v) && Ripe(c, k, n, t, j, x, i, v)
  {
    if s.items[i].writer.Some? {
      s', x, v := WriterGoesOn(c, s, k, n, t, j, i);
    } else {
      var s1 := ReadersLeave(c, s, k, n, t, j, i, u);
      s', v := WaiterGoesOn(c, s1, k, n, t, j, i, u);
      x := u;
      OnAndOn(c, s, s1, s');
    }
  }

  // ---------------------------------------------------------------- the exact condition

  lemma WrongBytes(c: Config, s: State, k: Key, n: nat, v: View, w: nat)
    requires Sees(s, k, n, v) && w in v.at && v.at[w] == Returned(Zeros(|c.chunk(k)|)) && !AllZeros(c.chunk(k))
    ensures !ExactFor(c, s, k)
  {
    assert s.calls[w] == Call(k, Returned(Zeros(|c.chunk(k)|)));
  }

  lemma RipeGoesWrong(c: Config, k: Key, n: nat, t: nat, j: nat, u: nat, i: nat, v: View) returns (end: View, w: nat)
    requires Ripe(c, k, n, t, j, u, i, v) && c.chunk(k) != []
    ensures Shows(c, k, n, v, end) && w in end.at && end.at[w] == Returned(Zeros(|c.chunk(k)|))
  {
    var prior: Item :| prior.pos == 0 && v == Reopened(c, k, n, v.calls, v.items, t, j, u, i, prior);
    end := ReopenedGoesWrong(c, k, n, v.calls, v.items, t, j, u, i, prior);
    w := v.calls + 1;
  }

  lemma SeenGoesWrong(c: Config, s: State, k: Key, n: nat, v: View, end: View, w: nat) returns (s': State)
    requires Sees(s, k, n, v) && Shows(c, k, n, v, end) && !AllZeros(c.chunk(k))
    requires w in end.at && end.at[w] == Returned(Zeros(|c.chunk(k)|))
    ensures Leads(c, s, s') && !ExactFor(c, s', k)
  {
    s' := ShownComes(c, s, k, n, v, end);
    WrongBytes(c, s', k, n, end, w);
  }

  lemma GoesWrong(c: Config, s: State, k: Key, n: nat, t: nat, j: nat, i: nat, u: nat) returns (s': State)
    requires Again(c, s, k, n, t, j, i) && Uses(s, u, i) && u != t && !AllZeros(c.chunk(k))
    ensures Leads(c, s, s') && !ExactFor(c, s', k)
  {
    var s1, x, v := Ripens(c, s, k, n, t, j, i, u);
    var end, w := RipeGoesWrong(c, k, n, t, j, x, i, v);
    s' := SeenGoesWrong(c, s1, k, n, v, end, w);
    OnAndOn(c, s, s1, s');
  }

  /** A run that goes on with care from `s` and ends with a call for `k` having returned wrong bytes. */
  ghost predicate EndsWrong(c: Config, s: State, k: Key, more: seq<Action>)
    requires WellFormed(s)
  {
    Careful(c, s, more) && !ExactFor(c, Run(c, s, more), k)
  }

  lemma AgainEndsWrong(c: Config, s: State, k: Key, n: nat, t: nat, j: nat, i: nat, u: nat) returns (more: seq<Action>)
    requires Again(c, s, k, n, t, j, i) && Uses(s, u, i) && u != t && !AllZeros(c.chunk(k))
    ensures EndsWrong(c, s, k, more)
  {
    var s' := GoesWrong(c, s, k, n, t, j, i, u);
    more := LeadsByRun(c, s, s');
  }

  lemma CarelessEndsWrong(c: Config, s: State, t: nat) returns (more: seq<Action>)
    requires Inv(c, s) && Careless(c, s, Move(t, true)) && !AllZeros(c.chunk(s.calls[t].key))
    ensures EndsWrong(c, StepOpening(s, t, true), s.calls[t].key, more)
  {
    var k, n, j, i, u := OpensAgain(c, s, t);
    more := AgainEndsWrong(c, StepOpening(s, t, true), k, n, t, j, i, u);
  }

  lemma CarefulEndsRight(c: Config, s: State, t: nat, k: Key, more: seq<Action>)
    requires Inv(c, s) && !Careless(c, s, Move(t, true))
    ensures !EndsWrong(c, Step(c, s, Move(t, true)), k, more)
  {
    var s1 := Step(c, s, Move(t, true));
    StepKeepsInv(c, s, Move(t, true));
    if Careful(c, s1, more) {
      RunKeepsInv(c, s1, more);
      InvExact(c, Run(c, s1, more));
    }
  }

  lemma ZerosEndRight(c: Config, s: State, t: nat, k: Key, more: seq<Action>)
    requires ZeroInv(c, s) && AllZeros(c.chunk(k))
    ensures !EndsWrong(c, Step(c, s, Move(t, true)), k, more)
  {
    var s1 := Step(c, s, Move(t, true));
    StepKeepsZeros(c, s, Move(t, true));
    RunKeepsZeros(c, s1, more);
    ZerosAreExact(c, Run(c, s1, more), k);
  }

  /** The move of call `t` can be followed, with care, to wrong bytes for its key. */
  ghost predicate CanEndWrong(c: Config, s: State, t: nat)
    requires WellFormed(s) && t < |s.calls|
  {
    exists more :: EndsWrong(c, Step(c, s, Move(t, true)), s.calls[t].key, more)
  }

  lemma StepGoesWrongExactly(c: Config, s: State, t: nat)
    requires Inv(c, s) && ZeroInv(c, s) && t < |s.calls|
    ensures CanEndWrong(c, s, t) <==> Careless(c, s, Move(t, true)) && !AllZeros(c.chunk(s.calls[t].key))
  {
    var k := s.calls[t].key;
    if AllZeros(c.chunk(k)) {
      forall more ensures !EndsWrong(c, Step(c, s, Move(t, true)), k, more) { ZerosEndRight(c, s, t, k, more); }
    } else if Careless(c, s, Move(t, true)) {
      var more := CarelessEndsWrong(c, s, t);
      assert EndsWrong(c, Step(c, s, Move(t, true)), k, more);
    } else {
      forall more ensures !EndsWrong(c, Step(c, s, Move(t, true)), k, more) { CarefulEndsRight(c, s, t, k, more); }
    }
  }

  /** After every careful run and for every call about to move: the move opens the door to wrong bytes,
      however careful everybody is from then on, if and only if it opens again a file in use that is
      not yet whole, and the chunk is not all zeros. */
  lemma WrongExactlyWhenCareless(c: Config, s: State, acts: seq<Action>, t: nat)
    requires Start(c, s) && Careful(c, s, acts) && t < |Run(c, s, acts).calls|
    ensures var e := Run(c, s, acts);
            CanEndWrong(c, e, t) <==> Careless(c, e, Move(t, true)) && !AllZeros(c.chunk(e.calls[t].key))
  {
    StartInv(c, s);
    RunKeepsInv(c, s, acts);
    StartZeros(c, s);
    RunKeepsZeros(c, s, acts);
    StepGoesWrongExactly(c, Run(c, s, acts), t);
  }

  // ---------------------------------------------------------------- such runs exist

  const NOTHING: State := State([], map[], [], map[], None, [])

  function FirstView(k: Key): View {
    View([], None, Some(0), 1, 1, map[0 := Inserting(0)], map[0 := Fresh(k, 0, false)])
  }

  lemma FirstBegins(c: Config, k: Key) returns (s: State)
    ensures Leads(c, NOTHING, s) && s == NOTHING.(lock := Some(0), calls := [Call(k, LookupLocked)])
  {
    var s1 := Step(c, NOTHING, Begin(k));
    var s2 := Step(c, s1, Move(0, true));
    assert s2 == NOTHING.(calls := [Call(k, AwaitLock)]);
    s := Step(c, s2, Move(0, true));
    Once(c, NOTHING, Begin(k));
    Once(c, s1, Move(0, true));
    Once(c, s2, Move(0, true));
    OnAndOn(c, NOTHING, s1, s2);
    OnAndOn(c, NOTHING, s2, s);
  }

  /** The first call of all creates the file. */
  lemma FirstOpens(c: Config, k: Key) returns (s: State)
    ensures Leads(c, NOTHING, s) && Sees(s, k, 0, FirstView(k))
  {
    var s1 := FirstBegins(c, k);
    var s2 := Step(c, s1, Move(0, true));
    assert s2 == NOTHING.(lock := Some(0), calls := [Call(k, Opening)]);
    s := Step(c, s2, Move(0, true));
    assert s == State([Inode(k, [])], map[k := 0], [Fresh(k, 0, false)], map[], Some(0), [Call(k, Inserting(0))]);
    Once(c, s1, Move(0, true));
    Once(c, s2, Move(0, true));
    OnAndOn(c, NOTHING, s1, s2);
    OnAndOn(c, NOTHING, s2, s);
  }

  function FetchedView(c: Config, k: Key): View {
    View([], Some(0), None, 1, 1, map[0 := Truncating(0, c.chunk(k))], map[0 := On(k, 0, 0, 0, Some(0))])
  }

  lemma FirstFetches(c: Config, k: Key)
    requires c.chunk(k) != []
    ensures Shows(c, k, 0, FirstView(k), FetchedView(c, k))
  {
    var v := FirstView(k);
    var v1 := With(To(v, 0, AwaitRead(0)), 0, v.on[0].(offered := true)).(cached := Some(0), lock := None);
    Inserts(c, k, 0, v, 0, 0);
    ComesToFetch(c, k, 0, v1, 0, 0);
    assert Held(c, k, v1, 0, 0) == FetchedView(c, k);
    ShowsOn(c, k, 0, v, v1, FetchedView(c, k));
  }

  function SecondView(c: Config, k: Key): View {
    View([], None, Some(1), 2, 1, map[0 := Truncating(0, c.chunk(k)), 1 := Opening], map[0 := On(k, 0, 0, 0, Some(0))])
  }

  /** The item is evicted, and a second call comes to open the file while the first is filling it. */
  lemma SecondMisses(c: Config, k: Key)
    ensures Shows(c, k, 0, FetchedView(c, k), SecondView(c, k))
  {
    var v := FetchedView(c, k);
    var v1 := v.(cached := None);
    var v2 := To(v1, 1, Lookup).(calls := 2);
    Shown(c, k, 0, v, EvictIt, v1);
    Shown(c, k, 0, v1, BeginIt, v2);
    Misses(c, k, 0, v2, 1);
    assert To(v2, 1, Opening).(lock := Some(1)) == SecondView(c, k);
    ShowsOn(c, k, 0, v, v1, v2);
    ShowsOn(c, k, 0, v, v2, SecondView(c, k));
  }

  /** For any chunk, a careful run comes to where a careless step is possible. */
  lemma CarelessHappens(c: Config, k: Key) returns (acts: seq<Action>)
    requires c.chunk(k) != []
    ensures Careful(c, NOTHING, acts) && |Run(c, NOTHING, acts).calls| == 2 && Run(c, NOTHING, acts).calls[1].key == k
    ensures Careless(c, Run(c, NOTHING, acts), Move(1, true))
  {
    var s := FirstOpens(c, k);
    FirstFetches(c, k);
    SecondMisses(c, k);
    ShowsOn(c, k, 0, FirstView(k), FetchedView(c, k), SecondView(c, k));
    var s' := ShownComes(c, s, k, 0, FirstView(k), SecondView(c, k));
    OnAndOn(c, NOTHING, s, s');
    SecondIsCareless(c, k, s');
    acts := LeadsByRun(c, NOTHING, s');
  }

  lemma SecondIsCareless(c: Config, k: Key, s: State)
    requires c.chunk(k) != [] && Sees(s, k, 0, SecondView(c, k))
    ensures |s.calls| == 2 && s.calls[1].key == k && Careless(c, s, Move(1, true))
  {
    assert 0 in SecondView(c, k).at && 1 in SecondView(c, k).at && 0 in SecondView(c, k).on;
    assert s.calls[0].pc == Truncating(0, c.chunk(k));
  }

  /** So, for any chunk that is not all zeros, some run makes one careless step, and returns zeros. */
  lemma ZerosReturned(c: Config, k: Key) returns (acts: seq<Action>, more: seq<Action>)
    requires !AllZeros(c.chunk(k))
    ensures Careful(c, NOTHING, acts) && EndsWrong(c, Step(c, Run(c, NOTHING, acts), Move(1, true)), k, more)
  {
    acts := CarelessHappens(c, k);
    assert Start(c, NOTHING);
    WrongExactlyWhenCareless(c, NOTHING, acts, 1);
    more :| EndsWrong(c, Step(c, Run(c, NOTHING, acts), Move(1, true)), k, more);
  }

  function FilledView(c: Config, k: Key): View {
    View(c.chunk(k), None, None, 1, 1, map[0 := AwaitReread(0)], map[0 := On(k, 0, |c.chunk(k)|, 1, None)])
  }

  lemma FirstFills(c: Config, k: Key)
    requires c.chunk(k) != []
    ensures Shows(c, k, 0, FetchedView(c, k), FilledView(c, k))
  {
    var v := FetchedView(c, k);
    var v1 := To(v, 0, Writing(0, c.chunk(k))).(content := []);
    var v2 := Full(c, k, v1, 0, 0);
    Truncates(c, k, 0, v, 0, 0);
    Writes(c, k, 0, v1, 0, 0);
    assert Zeros(0) + c.chunk(k) == c.chunk(k);
    assert v2.(cached := None) == FilledView(c, k);
    Shown(c, k, 0, v2, EvictIt, FilledView(c, k));
    ShowsOn(c, k, 0, v, v1, v2);
    ShowsOn(c, k, 0, v, v2, FilledView(c, k));
  }

  lemma Crashes(c: Config, s: State) returns (s': State)
    requires WellFormed(s) && |s.calls| > 0 && s.calls[0].pc == AwaitReread(0)
    requires !s.items[0].open && s.items[0].writer.None?
    ensures Leads(c, s, s') && |s'.calls| > 0 && s'.calls[0].pc == Crashed(0) && s'.calls[1..] == s.calls[1..]
  {
    var s1 := Step(c, s, Move(0, true));
    assert s1 == Goto(TakeRead(s, 0, 0), 0, Measuring(0));
    s' := Step(c, s1, Move(0, true));
    Once(c, s, Move(0, true));
    Once(c, s1, Move(0, true));
    OnAndOn(c, s, s1, s');
  }

  lemma DroppedCrashes(c: Config, k: Key, s: State) returns (s': State)
    requires Sees(s, k, 0, FilledView(c, k))
    ensures Leads(c, s, s') && |s'.calls| > 0 && s'.calls[0].pc == Crashed(0)
  {
    assert 0 in FilledView(c, k).at && 0 in FilledView(c, k).on;
    var s1 := StepDrop(s, 0);
    Once(c, s, Drop(0));
    s' := Crashes(c, s1);
    OnAndOn(c, s, s1, s');
  }

  /** For any chunk, a run in which an item dropped between its fill and the reading that follows takes
      the call down with it. */
  lemma DropCrashes(c: Config, k: Key) returns (acts: seq<Action>)
    requires c.chunk(k) != []
    ensures var e := Run(c, NOTHING, acts); |e.calls| > 0 && e.calls[0].pc == Crashed(0)
  {
    var s := FirstOpens(c, k);
    FirstFetches(c, k);
    FirstFills(c, k);
    ShowsOn(c, k, 0, FirstView(k), FetchedView(c, k), FilledView(c, k));
    var s1 := ShownComes(c, s, k, 0, FirstView(k), FilledView(c, k));
    var s2 := DroppedCrashes(c, k, s1);
    OnAndOn(c, NOTHING, s, s1);
    OnAndOn(c, NOTHING, s1, s2);
    acts := LeadsByRun(c, NOTHING, s2);
  }

  // ---------------------------------------------------------------- and writers shut out for ever

  function InsertedView(k: Key): View {
    View([], Some(0), None, 1, 1, map[0 := AwaitRead(0)], map[0 := On(k, 0, 0, 0, None)])
  }

  lemma FirstInserts(c: Config, k: Key)
    ensures Shows(c, k, 0, FirstView(k), InsertedView(k))
  {
    var v := FirstView(k);
    Inserts(c, k, 0, v, 0, 0);
    assert With(To(v, 0, AwaitRead(0)), 0, v.on[0].(offered := true)).(cached := Some(0), lock := None)
        == InsertedView(k);
  }

  function SecondQueues(k: Key): View {
    View([], Some(0), None, 2, 1, map[0 := AwaitRead(0), 1 := AwaitWrite(0)], map[0 := On(k, 0, 0, 0, None)])
  }

  /** A second call finds the item, and its file short, before the first has filled it. */
  lemma SecondFindsShort(c: Config, k: Key)
    requires c.chunk(k) != []
    ensures Shows(c, k, 0, InsertedView(k), SecondQueues(k))
  {
    var v := InsertedView(k);
    var v1 := To(v, 1, Lookup).(calls := 2);
    var v2 := To(v1, 1, AwaitRead(0));
    Shown(c, k, 0, v, BeginIt, v1);
    Shown(c, k, 0, v1, MoveIt(1), v2);
    FindsShort(c, k, 0, v2, 1, 0);
    assert To(v2, 1, AwaitWrite(0)) == SecondQueues(k);
    ShowsOn(c, k, 0, v, v1, v2);
    ShowsOn(c, k, 0, v, v2, SecondQueues(k));
  }

  function LeftQueueing(c: Config, k: Key): View {
    View(c.chunk(k), None, None, 2, 1, map[0 := AwaitReread(0), 1 := AwaitWrite(0)],
         map[0 := On(k, 0, |c.chunk(k)|, 1, None)])
  }

  /** The first fills it, and is about to read it when the item is evicted. */
  lemma FirstFillsIt(c: Config, k: Key)
    requires c.chunk(k) != []
    ensures Shows(c, k, 0, SecondQueues(k), LeftQueueing(c, k))
  {
    var v := SecondQueues(k);
    var v1 := Held(c, k, v, 0, 0);
    var v2 := To(v1, 0, Writing(0, c.chunk(k))).(content := []);
    var v3 := Full(c, k, v2, 0, 0);
    ComesToFetch(c, k, 0, v, 0, 0);
    Truncates(c, k, 0, v1, 0, 0);
    Writes(c, k, 0, v2, 0, 0);
    assert Zeros(0) + c.chunk(k) == c.chunk(k);
    assert v3.(cached := None) == LeftQueueing(c, k);
    Shown(c, k, 0, v3, EvictIt, LeftQueueing(c, k));
    ShowsOn(c, k, 0, v, v1, v2);
    ShowsOn(c, k, 0, v, v2, v3);
    ShowsOn(c, k, 0, v, v3, LeftQueueing(c, k));
  }

  lemma LeftInTheLurch(c: Config, k: Key, s: State) returns (s': State)
    requires Sees(s, k, 0, LeftQueueing(c, k))
    ensures Leads(c, s, s') && |s'.calls| > 1 && s'.calls[0].pc == Crashed(0) && ConcurrentCrash.Queues(s', 1, 0)
  {
    var v := LeftQueueing(c, k);
    assert 0 in v.at && 1 in v.at && 0 in v.on;
    var s1 := StepDrop(s, 0);
    Once(c, s, Drop(0));
    s' := Crashes(c, s1);
    OnAndOn(c, s, s1, s');
    assert s'.calls[1] == s'.calls[1..][0] && s.calls[1] == s.calls[1..][0];
  }

  /** For any chunk, a run comes to where the first call has crashed and the second waits for ever. */
  lemma WriterShutOut(c: Config, k: Key) returns (acts: seq<Action>)
    requires c.chunk(k) != []
    ensures var e := Run(c, NOTHING, acts);
            && |e.calls| > 1 && e.calls[0].pc == Crashed(0) && ConcurrentCrash.Queues(e, 1, 0)
            && ConcurrentCrash.ForEver(c, e, 1, 0)
  {
    var s := FirstOpens(c, k);
    FirstInserts(c, k);
    SecondFindsShort(c, k);
    FirstFillsIt(c, k);
    ShowsOn(c, k, 0, FirstView(k), InsertedView(k), SecondQueues(k));
    ShowsOn(c, k, 0, FirstView(k), SecondQueues(k), LeftQueueing(c, k));
    var s1 := ShownComes(c, s, k, 0, FirstView(k), LeftQueueing(c, k));
    var s2 := LeftInTheLurch(c, k, s1);
    OnAndOn(c, NOTHING, s, s1);
    OnAndOn(c, NOTHING, s1, s2);
    acts := LeadsByRun(c, NOTHING, s2);
    assert ConcurrentCrash.Sticks(s2, 0, 0);
    ConcurrentCrash.WriterGetsInExactly(c, NOTHING, acts, 1, 0);
  }
}
