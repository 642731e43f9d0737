/** Which calls of GetOrCreate can still succeed. In every careful run, a call that is not finished can
    come to return its chunk, with everybody careful from then on, unless the item it is on has been
    dropped; and if it has been, no continuation at all makes the call return. */
module ConcurrentReturns {
  import opened Common
  import opened Reachability
  import opened ConcurrentCache
  import opened ConcurrentLocks
  import opened ConcurrentExact
  import opened ConcurrentStages
  import opened ConcurrentCrash

  /** The call has come to its end with its chunk. */
  predicate HasReturned(c: Config, s: State, t: nat) {
    t < |s.calls| && s.calls[t].pc == Returned(c.chunk(s.calls[t].key))
  }

  // ---------------------------------------------------------------- a hit

  /** A call that finds an open item's file as long as the chunk returns what is in it, in three moves. */
  lemma HitReturns(c: Config, s: State, t: nat, i: nat)
    requires WellFormed(s) && t < |s.calls| && s.calls[t].pc == Checking(i) && s.items[i].open
    requires |Content(s, i)| == |c.chunk(s.calls[t].key)|
    ensures var s' := Step(c, Step(c, Step(c, s, Move(t, true)), Move(t, true)), Move(t, true));
            s' == Goto(LetRead(s, i, t), t, Returned(Content(s, i)))
  {
    var s1 := Step(c, s, Move(t, true));
    var s2 := Step(c, s1, Move(t, true));
    assert s1 == Goto(s, t, Measuring(i));
    assert s2 == Goto(s1, t, Reading(i, |Content(s, i)|));
    assert Content(s, i)[..|Content(s, i)|] == Content(s, i);
  }

  // ---------------------------------------------------------------- calm steps

  /** Calls move with care, and no fetch fails. */
  predicate Calm(c: Config, s: State, t: nat, good: bool)
    requires WellFormed(s)
  {
    t < |s.calls| && !Careless(c, s, Move(t, good)) && (s.calls[t].pc.Fetching? ==> good)
  }

  ghost predicate CalmStep(c: Config, s: State, s': State) {
    exists t, good :: WellFormed(s) && Calm(c, s, t, good) && s' == StepCall(c, s, t, good)
  }

  ghost function CalmOf(c: Config): (State, State) -> bool { (s, s') => CalmStep(c, s, s') }

  ghost predicate Calmly(c: Config, s: State, s': State) { Reaches(CalmOf(c), s, s') }

  lemma Moves(c: Config, s: State, t: nat, good: bool)
    requires WellFormed(s) && Calm(c, s, t, good)
    ensures Calmly(c, s, StepCall(c, s, t, good))
  {
    assert CalmStep(c, s, StepCall(c, s, t, good));
    Goes(CalmOf(c), s, StepCall(c, s, t, good));
  }

  lemma CalmlyOn(c: Config, s: State, mid: State, end: State)
    requires Calmly(c, s, mid) && Calmly(c, mid, end)
    ensures Calmly(c, s, end)
  {
    GoesOn(CalmOf(c), s, mid, end);
  }

  lemma CalmIsNext(c: Config, s: State, s': State)
    requires CalmStep(c, s, s')
    ensures Next(c, s, s')
  {
    var t, good :| WellFormed(s) && Calm(c, s, t, good) && s' == StepCall(c, s, t, good);
    assert s' == Step(c, s, Move(t, good));
  }

  lemma CalmIsCareful(c: Config, s: State, s': State)
    requires Calmly(c, s, s')
    ensures Leads(c, s, s')
  {
    var ss :| Path(CalmOf(c), ss) && ss[0] == s && ss[|ss| - 1] == s';
    forall n | 0 < n < |ss| ensures NextOf(c)(ss[n - 1], ss[n]) { CalmIsNext(c, ss[n - 1], ss[n]); }
    assert Path(NextOf(c), ss);
  }

  // ---------------------------------------------------------------- nobody in the way

  /** Nobody but call `t` holds item `i`'s lock. */
  predicate Unhindered(s: State, t: nat, i: nat) {
    && i < |s.items| && t < |s.calls|
    && s.items[i].writer == (if WriteHeld(s.calls[t].pc, i) then Some(t) else None)
    && s.items[i].readers == (if ReadHeld(s.calls[t].pc, i) then {t} else {})
  }

  /** Call `t` is on the open item `i`, has nobody in its way, and what it needs to know is so. */
  ghost predicate Solo(c: Config, s: State, t: nat, i: nat) {
    && WellFormed(s) && t < |s.calls| && HasItem(s.calls[t].pc) && s.calls[t].pc.item == i
    && s.items[i].open && s.items[i].key == s.calls[t].key && Unhindered(s, t, i)
    && CallGood(c, s, t) && ItemGood(c, s, i)
    && (|Content(s, i)| == |c.chunk(s.calls[t].key)| ==> Content(s, i) == c.chunk(s.calls[t].key))
  }

  /** How many moves a call is from its end, at most. */
  function Left(pc: Pc): nat {
    match pc
    case Inserting(_) => 12
    case Releasing(_) => 11
    case AwaitRead(_) => 10
    case Checking(_) => 9
    case AwaitWrite(_) => 8
    case Rechecking(_) => 7
    case Fetching(_) => 6
    case Truncating(_, _) => 5
    case Writing(_, _) => 4
    case AwaitReread(_) => 3
    case Measuring(_) => 2
    case Reading(_, _) => 1
    case _ => 0
  }

  /** The call's move brings it on, or to its end. */
  ghost predicate Advances(c: Config, s: State, t: nat, i: nat)
    requires WellFormed(s) && t < |s.calls|
  {
    var s' := Step(c, s, Move(t, true));
    && t < |s'.calls| && s'.calls[t].key == s.calls[t].key
    && (HasReturned(c, s', t) || (Solo(c, s', t, i) && Left(s'.calls[t].pc) < Left(s.calls[t].pc)))
  }

  lemma SoloEnters(c: Config, s: State, t: nat, i: nat)
    requires Solo(c, s, t, i) && (s.calls[t].pc.Inserting? || s.calls[t].pc.Releasing?)
    ensures Advances(c, s, t, i)
  {
  }

  lemma SoloWaits(c: Config, s: State, t: nat, i: nat)
    requires Solo(c, s, t, i) && (s.calls[t].pc.AwaitRead? || s.calls[t].pc.AwaitWrite? || s.calls[t].pc.AwaitReread?)
    ensures Advances(c, s, t, i)
  {
  }

  lemma SoloLooks(c: Config, s: State, t: nat, i: nat)
    requires Solo(c, s, t, i) && (s.calls[t].pc.Checking? || s.calls[t].pc.Rechecking?)
    ensures Advances(c, s, t, i)
  {
  }

  lemma SoloFetches(c: Config, s: State, t: nat, i: nat)
    requires Solo(c, s, t, i) && (s.calls[t].pc.Fetching? || s.calls[t].pc.Truncating?)
    ensures Advances(c, s, t, i)
  {
  }

  lemma SoloWrites(c: Config, s: State, t: nat, i: nat)
    requires Solo(c, s, t, i) && s.calls[t].pc.Writing?
    ensures Advances(c, s, t, i)
  {
    var buf, s' := c.chunk(s.calls[t].key), Step(c, s, Move(t, true));
    assert WriteAt([], 0, buf) == buf;
    assert Content(s', i) == buf;
  }

  lemma SoloReads(c: Config, s: State, t: nat, i: nat)
    requires Solo(c, s, t, i) && (s.calls[t].pc.Measuring? || s.calls[t].pc.Reading?)
    ensures Advances(c, s, t, i)
  {
  }

  lemma SoloAdvances(c: Config, s: State, t: nat, i: nat)
    requires Solo(c, s, t, i)
    ensures Advances(c, s, t, i)
  {
    var pc := s.calls[t].pc;
    if pc.Inserting? || pc.Releasing? {
      SoloEnters(c, s, t, i);
    } else if pc.AwaitRead? || pc.AwaitWrite? || pc.AwaitReread? {
      SoloWaits(c, s, t, i);
    } else if pc.Checking? || pc.Rechecking? {
      SoloLooks(c, s, t, i);
    } else if pc.Measuring? || pc.Reading? {
      SoloReads(c, s, t, i);
    } else if pc.Writing? {
      SoloWrites(c, s, t, i);
    } else {
      SoloFetches(c, s, t, i);
    }
  }

  /** With nobody in its way a call returns, by its own moves. */
  lemma {:induction false} SoloReturns(c: Config, s: State, t: nat, i: nat) returns (s': State)
    requires Solo(c, s, t, i)
    ensures Calmly(c, s, s') && HasReturned(c, s', t)
    decreases Left(s.calls[t].pc)
  {
    var s1 := Step(c, s, Move(t, true));
    SoloAdvances(c, s, t, i);
    Moves(c, s, t, true);
    if HasReturned(c, s1, t) {
      s' := s1;
    } else {
      s' := SoloReturns(c, s1, t, i);
      CalmlyOn(c, s, s1, s');
    }
  }

  // ---------------------------------------------------------------- others get out of the way

  /** Calm steps lead from one state to the other, and call `t` has not moved. */
  ghost predicate Meanwhile(c: Config, s: State, s': State, t: nat) {
    && Inv(c, s) && Inv(c, s') && Calmly(c, s, s')
    && t < |s.calls| && t < |s'.calls| && s'.calls[t] == s.calls[t]
  }

  lemma MeanwhileOn(c: Config, s: State, s1: State, s': State, t: nat)
    requires Meanwhile(c, s, s1, t) && Meanwhile(c, s1, s', t)
    ensures Meanwhile(c, s, s', t)
  {
    CalmlyOn(c, s, s1, s');
  }

  lemma MeanwhileStays(c: Config, s: State, t: nat)
    requires Inv(c, s) && t < |s.calls|
    ensures Meanwhile(c, s, s, t)
  {
    Stays(CalmOf(c), s);
  }

  /** Another call moves. */
  lemma Other(c: Config, s: State, x: nat, good: bool, t: nat)
    requires Inv(c, s) && t < |s.calls| && x < |s.calls| && x != t && Calm(c, s, x, good)
    ensures Meanwhile(c, s, StepCall(c, s, x, good), t) && OthersStay(s, StepCall(c, s, x, good), x)
  {
    Moves(c, s, x, good);
    StepKeepsInv(c, s, Move(x, good));
    MovesItself(c, s, x, good);
  }

  /** Nobody sticks to an item that is open. */
  lemma NoneSticks(c: Config, s: State, x: nat, i: nat)
    requires Inv(c, s) && i < |s.items| && s.items[i].open
    ensures !Sticks(s, x, i)
  {
    if x < |s.calls| { assert CallGood(c, s, x); }
  }

  /** A holder of the item's lock fails, and so lets go of it. */
  lemma HolderFails(c: Config, s: State, t: nat, i: nat, x: nat)
    requires Inv(c, s) && t < |s.calls| && x < |s.calls| && x != t && i < |s.items| && s.items[i].open
    requires (ReadHeld(s.calls[x].pc, i) || WriteHeld(s.calls[x].pc, i)) && !s.calls[x].pc.Fetching?
    ensures Meanwhile(c, s, StepCall(c, s, x, false), t) && LetGo(s, StepCall(c, s, x, false), x, i)
  {
    Other(c, s, x, false, t);
    NoneSticks(c, s, x, i);
    if ReadHeld(s.calls[x].pc, i) { ReaderLeaves(c, s, x, i); } else { WriterLeaves(c, s, x, i); }
  }

  lemma LetGoLater(s: State, s1: State, s': State, x: nat, i: nat)
    requires x < |s.calls| == |s1.calls| && i < |s.items| && s1.items == s.items && OthersStay(s, s1, x)
    requires LetGo(s1, s', x, i)
    ensures LetGo(s, s', x, i)
  {
  }

  /** A holder that is fetching first has to have fetched. */
  lemma FetcherLeaves(c: Config, s: State, t: nat, i: nat, x: nat) returns (s': State)
    requires Inv(c, s) && t < |s.calls| && x < |s.calls| && x != t && i < |s.items| && s.items[i].open
    requires s.calls[x].pc == Fetching(i)
    ensures Meanwhile(c, s, s', t) && LetGo(s, s', x, i)
  {
    Other(c, s, x, true, t);
    var s1 := StepCall(c, s, x, true);
    assert s1 == Goto(s, x, Truncating(i, c.chunk(s.calls[x].key)));
    HolderFails(c, s1, t, i, x);
    s' := StepCall(c, s1, x, false);
    LetGoLater(s, s1, s', x, i);
    MeanwhileOn(c, s, s1, s', t);
  }

  lemma HolderLeaves(c: Config, s: State, t: nat, i: nat, x: nat) returns (s': State)
    requires Inv(c, s) && t < |s.calls| && x < |s.calls| && x != t && i < |s.items| && s.items[i].open
    requires ReadHeld(s.calls[x].pc, i) || WriteHeld(s.calls[x].pc, i)
    ensures Meanwhile(c, s, s', t) && LetGo(s, s', x, i)
  {
    if s.calls[x].pc.Fetching? {
      s' := FetcherLeaves(c, s, t, i, x);
    } else {
      HolderFails(c, s, t, i, x);
      s' := StepCall(c, s, x, false);
    }
  }

  /** Somebody in the way of call `t` on item `i`, if there is anybody. */
  lemma FindHolder(s: State, t: nat, i: nat) returns (x: nat)
    requires WellFormed(s) && Locks(s) && t < |s.calls| && i < |s.items| && !Unhindered(s, t, i)
    ensures x < |s.calls| && x != t && (ReadHeld(s.calls[x].pc, i) || WriteHeld(s.calls[x].pc, i))
  {
    assert ItemLockSound(s, i);
    if s.items[i].writer.Some? && s.items[i].writer.value != t {
      x := s.items[i].writer.value;
    } else {
      x :| x in s.items[i].readers && x != t;
    }
  }

  /** Everybody who holds the lock of an open item can leave. */
  lemma {:induction false} HoldersLeave(c: Config, s: State, t: nat, i: nat) returns (s': State)
    requires Inv(c, s) && t < |s.calls| && i < |s.items| && s.items[i].open
    ensures Meanwhile(c, s, s', t) && Unhindered(s', t, i) && s'.items[i].open
    decreases s.items[i].writer.Some?, s.items[i].readers
  {
    if Unhindered(s, t, i) {
      s' := s;
      MeanwhileStays(c, s, t);
    } else {
      var x := FindHolder(s, t, i);
      var s1 := HolderLeaves(c, s, t, i, x);
      assert ItemLockSound(s, i);
      s' := HoldersLeave(c, s1, t, i);
      MeanwhileOn(c, s, s1, s', t);
    }
  }

  lemma InvSolo(c: Config, s: State, t: nat, i: nat)
    requires Inv(c, s) && Uses(s, t, i) && i < |s.items| && s.items[i].open && Unhindered(s, t, i)
    ensures Solo(c, s, t, i)
  {
    assert Live(s, i) && ItemGood(c, s, i) && CallGood(c, s, t);
  }

  /** A call on an open item can return. */
  lemma UserReturns(c: Config, s: State, t: nat, i: nat) returns (s': State)
    requires Inv(c, s) && Uses(s, t, i) && s.items[i].open
    ensures Calmly(c, s, s') && HasReturned(c, s', t)
  {
    var s1 := HoldersLeave(c, s, t, i);
    InvSolo(c, s1, t, i);
    s' := SoloReturns(c, s1, t, i);
    CalmlyOn(c, s, s1, s');
  }

  // ---------------------------------------------------------------- opening with care

  /** The other calls that are on open items. */
  function Busy(s: State, t: nat): set<nat>
    requires WellFormed(s)
  {
    set u: nat | u < |s.calls| && u != t && HasItem(s.calls[u].pc) && s.items[s.calls[u].pc.item].open
  }

  /** A call that waits for an item nobody holds gets it. */
  lemma GoesIn(c: Config, s: State, t: nat, u: nat, i: nat)
    requires Inv(c, s) && t < |s.calls| && Uses(s, u, i) && u != t && Unhindered(s, u, i)
    requires s.calls[u].pc.AwaitRead? || s.calls[u].pc.AwaitWrite? || s.calls[u].pc.AwaitReread?
    ensures Meanwhile(c, s, StepCall(c, s, u, true), t) && GotIn(s, StepCall(c, s, u, true), u, i)
    ensures Busy(StepCall(c, s, u, true), t) == Busy(s, t)
  {
    Other(c, s, u, true, t);
    TakesIt(c, s, u, i);
    SameBusy(s, StepCall(c, s, u, true), t, u, i);
  }

  /** Call `u` holds the lock of its item now, and nothing is closed or opened. */
  ghost predicate GotIn(s: State, s': State, u: nat, i: nat) {
    && Uses(s', u, i) && (ReadHeld(s'.calls[u].pc, i) || WriteHeld(s'.calls[u].pc, i)) && OthersStay(s, s', u)
    && |s'.items| == |s.items| && (forall j :: 0 <= j < |s.items| ==> s'.items[j].open == s.items[j].open)
  }

  lemma TakesIt(c: Config, s: State, u: nat, i: nat)
    requires WellFormed(s) && Uses(s, u, i) && Unhindered(s, u, i)
    requires s.calls[u].pc.AwaitRead? || s.calls[u].pc.AwaitWrite? || s.calls[u].pc.AwaitReread?
    ensures GotIn(s, StepCall(c, s, u, true), u, i)
  {
  }

  lemma SameBusy(s: State, s': State, t: nat, u: nat, i: nat)
    requires WellFormed(s) && WellFormed(s') && Uses(s, u, i) && GotIn(s, s', u, i)
    ensures Busy(s', t) == Busy(s, t)
  {
  }

  lemma GoneIsLess(s: State, s1: State, t: nat, x: nat, i: nat)
    requires WellFormed(s) && WellFormed(s1) && x in Busy(s, t) && i < |s.items| && LetGo(s, s1, x, i)
    ensures Busy(s1, t) == Busy(s, t) - {x}
  {
  }

  /** While call `t` holds the cache's lock, one more of the busy ones can be over with. */
  lemma OneIsOver(c: Config, s: State, t: nat, u: nat) returns (s': State)
    requires Inv(c, s) && t < |s.calls| && LockHeld(s.calls[t].pc) && u in Busy(s, t)
    ensures Meanwhile(c, s, s', t) && Busy(s', t) < Busy(s, t)
  {
    var i := s.calls[u].pc.item;
    if ReadHeld(s.calls[u].pc, i) || WriteHeld(s.calls[u].pc, i) {
      s' := HolderIsOver(c, s, t, u, i);
    } else if Unhindered(s, u, i) {
      GoesIn(c, s, t, u, i);
      var s1 := StepCall(c, s, u, true);
      s' := HolderIsOver(c, s1, t, u, i);
      MeanwhileOn(c, s, s1, s', t);
    } else {
      var x := FindHolder(s, u, i);
      NoneSticks(c, s, x, i);
      s' := HolderIsOver(c, s, t, x, i);
    }
  }

  lemma HolderIsOver(c: Config, s: State, t: nat, x: nat, i: nat) returns (s': State)
    requires Inv(c, s) && t < |s.calls| && x in Busy(s, t) && i < |s.items|
    requires ReadHeld(s.calls[x].pc, i) || WriteHeld(s.calls[x].pc, i)
    ensures Meanwhile(c, s, s', t) && Busy(s', t) < Busy(s, t)
  {
    s' := HolderLeaves(c, s, t, i, x);
    GoneIsLess(s, s', t, x, i);
  }

  lemma {:induction false} AllAreOver(c: Config, s: State, t: nat) returns (s': State)
    requires Inv(c, s) && t < |s.calls| && LockHeld(s.calls[t].pc)
    ensures Meanwhile(c, s, s', t) && Busy(s', t) == {}
    decreases Busy(s, t)
  {
    if u :| u in Busy(s, t) {
      var s1 := OneIsOver(c, s, t, u);
      s' := AllAreOver(c, s1, t);
      MeanwhileOn(c, s, s1, s', t);
    } else {
      s' := s;
      MeanwhileStays(c, s, t);
    }
  }

  /** The file can be in somebody's use only on an open item, because the path of a dropped one is gone. */
  lemma CarelessAmongBusy(c: Config, s: State, t: nat)
    requires Inv(c, s) && Careless(c, s, Move(t, true))
    ensures Busy(s, t) != {}
  {
    var n := s.paths[s.calls[t].key];
    var u: nat :| u < |s.calls| && HasItem(s.calls[u].pc) && s.items[s.calls[u].pc.item].inode == n;
    assert u in Busy(s, t);
  }

  lemma OpenedUses(s: State, t: nat)
    requires WellFormed(s) && t < |s.calls| && s.calls[t].pc.Opening?
    ensures var s' := StepOpening(s, t, true); Uses(s', t, |s.items|) && s'.items[|s.items|].open
  {
  }

  lemma OpenerReturns(c: Config, s: State, t: nat) returns (s': State)
    requires Inv(c, s) && t < |s.calls| && s.calls[t].pc.Opening?
    ensures Calmly(c, s, s') && HasReturned(c, s', t)
  {
    var s1 := AllAreOver(c, s, t);
    if Careless(c, s1, Move(t, true)) { CarelessAmongBusy(c, s1, t); }
    Moves(c, s1, t, true);
    StepKeepsInv(c, s1, Move(t, true));
    OpenedUses(s1, t);
    var s2 := StepOpening(s1, t, true);
    s' := UserReturns(c, s2, t, |s1.items|);
    CalmlyOn(c, s, s1, s2);
    CalmlyOn(c, s, s2, s');
  }

  // ---------------------------------------------------------------- before it has an item

  /** The call's own next move, before it opens anything. */
  lemma Own(c: Config, s: State, t: nat)
    requires Inv(c, s) && t < |s.calls| && !s.calls[t].pc.Opening?
    ensures Calmly(c, s, StepCall(c, s, t, true)) && Inv(c, StepCall(c, s, t, true))
  {
    Moves(c, s, t, true);
    StepKeepsInv(c, s, Move(t, true));
  }

  lemma LookedUpReturns(c: Config, s: State, t: nat) returns (s': State)
    requires Inv(c, s) && t < |s.calls| && s.calls[t].pc.LookupLocked?
    ensures Calmly(c, s, s') && HasReturned(c, s', t)
  {
    Own(c, s, t);
    var s1 := StepCall(c, s, t, true);
    if s.calls[t].key in s.entries {
      s' := UserReturns(c, s1, t, s.entries[s.calls[t].key]);
    } else {
      s' := OpenerReturns(c, s1, t);
    }
    CalmlyOn(c, s, s1, s');
  }

  lemma FailsWithLock(c: Config, s: State, x: nat)
    requires WellFormed(s) && x < |s.calls| && s.lock == Some(x) && LockHeld(s.calls[x].pc)
    ensures var s' := StepCall(c, s, x, false);
            s'.lock.None? || (!s.calls[x].pc.Opening? && s' == Goto(s, x, Opening))
  {
  }

  /** Whoever has the cache's lock lets go of it, failing if need be. */
  lemma LockIsLet(c: Config, s: State, t: nat) returns (s': State)
    requires Inv(c, s) && t < |s.calls| && s.calls[t].pc.AwaitLock?
    ensures Meanwhile(c, s, s', t) && s'.lock.None?
  {
    if s.lock.None? {
      s' := s;
      MeanwhileStays(c, s, t);
    } else {
      var x := s.lock.value;
      assert x < |s.calls| && LockHeld(s.calls[x].pc);
      Other(c, s, x, false, t);
      FailsWithLock(c, s, x);
      s' := StepCall(c, s, x, false);
      if s'.lock.Some? {
        var s1 := s';
        Other(c, s1, x, false, t);
        FailsWithLock(c, s1, x);
        s' := StepCall(c, s1, x, false);
        MeanwhileOn(c, s, s1, s', t);
      }
    }
  }

  lemma LockerReturns(c: Config, s: State, t: nat) returns (s': State)
    requires Inv(c, s) && t < |s.calls| && s.calls[t].pc.AwaitLock?
    ensures Calmly(c, s, s') && HasReturned(c, s', t)
  {
    var s1 := LockIsLet(c, s, t);
    Own(c, s1, t);
    var s2 := StepCall(c, s1, t, true);
    s' := LookedUpReturns(c, s2, t);
    CalmlyOn(c, s, s1, s2);
    CalmlyOn(c, s, s2, s');
  }

  lemma NewcomerReturns(c: Config, s: State, t: nat) returns (s': State)
    requires Inv(c, s) && t < |s.calls| && s.calls[t].pc.Lookup?
    ensures Calmly(c, s, s') && HasReturned(c, s', t)
  {
    Own(c, s, t);
    var s1 := StepCall(c, s, t, true);
    if s.calls[t].key in s.entries {
      s' := UserReturns(c, s1, t, s.entries[s.calls[t].key]);
    } else {
      s' := LockerReturns(c, s1, t);
    }
    CalmlyOn(c, s, s1, s');
  }

  // ---------------------------------------------------------------- exactly which calls

  /** The call is on an item that has been dropped. */
  predicate Lost(s: State, t: nat)
    requires WellFormed(s)
  {
    t < |s.calls| && HasItem(s.calls[t].pc) && !s.items[s.calls[t].pc.item].open
  }

  /** A call that is not finished and not lost can return. */
  lemma Returns(c: Config, s: State, t: nat) returns (s': State)
    requires Inv(c, s) && t < |s.calls| && !Finished(s.calls[t].pc) && !Lost(s, t)
    ensures Calmly(c, s, s') && HasReturned(c, s', t)
  {
    if HasItem(s.calls[t].pc) {
      s' := UserReturns(c, s, t, s.calls[t].pc.item);
    } else if s.calls[t].pc.Lookup? {
      s' := NewcomerReturns(c, s, t);
    } else if s.calls[t].pc.AwaitLock? {
      s' := LockerReturns(c, s, t);
    } else if s.calls[t].pc.LookupLocked? {
      s' := LookedUpReturns(c, s, t);
    } else {
      s' := OpenerReturns(c, s, t);
    }
  }

  /** Lost, or come to an end that is no return. */
  predicate Hopeless(s: State, t: nat)
    requires WellFormed(s)
  {
    Lost(s, t) || (t < |s.calls| && (s.calls[t].pc.Failed? || s.calls[t].pc.Crashed?))
  }

  lemma LostMoves(c: Config, s: State, t: nat, good: bool)
    requires WellFormed(s) && SureIsOpen(s) && Hopeless(s, t)
    ensures Hopeless(StepCall(c, s, t, good), t)
  {
  }

  lemma StepIsHopeless(c: Config, s: State, a: Action, t: nat)
    requires WellFormed(s) && SureIsOpen(s) && Hopeless(s, t)
    ensures Hopeless(Step(c, s, a), t)
  {
    if a.Move? && a.call < |s.calls| {
      if a.call == t { LostMoves(c, s, t, a.good); } else { CallInnocent(c, s, a.call, a.good); }
    }
  }

  lemma {:induction false} HopelessForEver(c: Config, s: State, t: nat, more: seq<Action>)
    requires WellFormed(s) && Locks(s) && SureIsOpen(s) && Hopeless(s, t)
    ensures Locks(Run(c, s, more)) && SureIsOpen(Run(c, s, more)) && Hopeless(Run(c, s, more), t)
    decreases |more|
  {
    if more != [] {
      var before, a := more[..|more| - 1], more[|more| - 1];
      HopelessForEver(c, s, t, before);
      StepIsHopeless(c, Run(c, s, before), a, t);
      StepSure(c, Run(c, s, before), a);
      StepKeepsLocks(c, Run(c, s, before), a);
    }
  }

  /** Going on like `more` makes call `t` return its chunk. */
  ghost predicate ComesBack(c: Config, s: State, t: nat, more: seq<Action>)
    requires WellFormed(s)
  {
    HasReturned(c, Run(c, s, more), t)
  }

  ghost predicate CanReturn(c: Config, s: State, t: nat)
    requires WellFormed(s)
  {
    exists more :: ComesBack(c, s, t, more)
  }

  ghost predicate CanReturnWithCare(c: Config, s: State, t: nat)
    requires WellFormed(s)
  {
    exists more :: Careful(c, s, more) && ComesBack(c, s, t, more)
  }

  lemma CanReturnExactly(c: Config, s: State, t: nat)
    requires Inv(c, s) && SureIsOpen(s) && t < |s.calls| && !Finished(s.calls[t].pc)
    ensures CanReturn(c, s, t) <==> !Lost(s, t)
    ensures CanReturnWithCare(c, s, t) <==> !Lost(s, t)
  {
    if Lost(s, t) {
      forall more ensures !ComesBack(c, s, t, more) { HopelessForEver(c, s, t, more); }
    } else {
      var s' := Returns(c, s, t);
      CalmIsCareful(c, s, s');
      var more := LeadsByRun(c, s, s');
      assert ComesBack(c, s, t, more);
    }
  }

  /** In every careful run, a call that is not finished can still return its chunk if and only if the
      item it is on, if any, has not been dropped; and then it can with everybody careful. */
  lemma ReturnsUnlessDropped(c: Config, s: State, acts: seq<Action>, t: nat)
    requires Start(c, s) && Careful(c, s, acts)
    requires t < |Run(c, s, acts).calls| && !Finished(Run(c, s, acts).calls[t].pc)
    ensures CanReturn(c, Run(c, s, acts), t) <==> !Lost(Run(c, s, acts), t)
    ensures CanReturnWithCare(c, Run(c, s, acts), t) <==> !Lost(Run(c, s, acts), t)
  {
    StartInv(c, s);
    RunKeepsInv(c, s, acts);
    RunSure(c, s, acts);
    CanReturnExactly(c, Run(c, s, acts), t);
  }
}
