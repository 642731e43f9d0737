/** The call that uses a file that is no more: exactly which calls of GetOrCreate crash. */
module ConcurrentCrash {
  import opened Common
  import opened Reachability
  import opened ConcurrentCache
  import opened ConcurrentLocks

  /** A call that has looked at its item under a lock it still holds, and found it open. */
  predicate Sure(pc: Pc) { pc.Fetching? || pc.Truncating? || pc.Writing? || pc.Reading? }

  ghost predicate SureIsOpen(s: State)
    requires WellFormed(s)
  {
    forall t :: 0 <= t < |s.calls| && Sure(s.calls[t].pc) ==> s.items[s.calls[t].pc.item].open
  }

  /** The call has crashed, or will when it moves on: it is to read an item that has been dropped. */
  predicate Doomed(s: State, t: nat)
    requires WellFormed(s)
  {
    t < |s.calls| && var pc := s.calls[t].pc;
    pc.Crashed? || ((pc.AwaitReread? || pc.Measuring?) && !s.items[pc.item].open)
  }

  /** Drops the item of call `t` while it waits between its fill or second look and its reading. */
  predicate DropsUnder(s: State, a: Action, t: nat)
    requires WellFormed(s)
  {
    && a.Drop? && t < |s.calls| && s.calls[t].pc == AwaitReread(a.item)
    && s.items[a.item].open && !StepDrop(s, a.item).items[a.item].open
  }

  // ---------------------------------------------------------------- steps

  /** A call opens and closes nothing, and leaves the others where they are. */
  ghost predicate SameOpen(s: State, s': State, t: nat)
    requires t < |s.calls|
  {
    && |s'.calls| == |s.calls| && |s'.items| >= |s.items|
    && (forall u :: 0 <= u < |s.calls| && u != t ==> s'.calls[u] == s.calls[u])
    && (forall i :: 0 <= i < |s.items| ==> s'.items[i].open == s.items[i].open)
  }

  /** Being doomed is none of a call's own doing, and it is sure only of an open item. */
  ghost predicate Innocent(s: State, s': State, t: nat)
    requires WellFormed(s) && WellFormed(s') && t < |s.calls|
  {
    && SameOpen(s, s', t) && (Doomed(s', t) <==> Doomed(s, t))
    && (Sure(s'.calls[t].pc) ==> s'.items[s'.calls[t].pc.item].open)
  }

  lemma LookupInnocent(s: State, t: nat)
    requires WellFormed(s) && t < |s.calls|
    requires s.calls[t].pc.Lookup? || s.calls[t].pc.AwaitLock? || s.calls[t].pc.LookupLocked?
    ensures Innocent(s, StepLookup(s, t), t) && Innocent(s, StepAwaitLock(s, t), t)
    ensures Innocent(s, StepLookupLocked(s, t), t)
  {
  }

  lemma OpeningInnocent(s: State, t: nat, good: bool)
    requires WellFormed(s) && t < |s.calls| && s.calls[t].pc.Opening?
    ensures Innocent(s, StepOpening(s, t, good), t)
  {
  }

  lemma InsertingInnocent(s: State, t: nat, good: bool)
    requires WellFormed(s) && t < |s.calls|
    ensures s.calls[t].pc.Inserting? ==> Innocent(s, StepInserting(s, t, good), t)
    ensures s.calls[t].pc.Releasing? ==> Innocent(s, StepReleasing(s, t), t)
  {
  }

  lemma WaitingInnocent(s: State, t: nat, i: nat)
    requires WellFormed(s) && t < |s.calls|
    ensures s.calls[t].pc == AwaitRead(i) ==> Innocent(s, StepAwaitRead(s, t, Checking(i)), t)
    ensures s.calls[t].pc == AwaitReread(i) ==> Innocent(s, StepAwaitRead(s, t, Measuring(i)), t)
  {
  }

  lemma QueueingInnocent(s: State, t: nat)
    requires WellFormed(s) && t < |s.calls| && s.calls[t].pc.AwaitWrite?
    ensures Innocent(s, StepAwaitWrite(s, t), t)
  {
  }

  lemma CheckingInnocent(c: Config, s: State, t: nat, good: bool)
    requires WellFormed(s) && t < |s.calls|
    ensures s.calls[t].pc.Checking? ==> Innocent(s, StepChecking(c, s, t, good), t)
    ensures s.calls[t].pc.Rechecking? ==> Innocent(s, StepRechecking(c, s, t, good), t)
  {
  }

  lemma ReadingInnocent(c: Config, s: State, t: nat, good: bool)
    requires WellFormed(s) && t < |s.calls|
    ensures s.calls[t].pc.Measuring? ==> Innocent(s, StepMeasuring(c, s, t, good), t)
    ensures s.calls[t].pc.Reading? ==> Innocent(s, StepReading(c, s, t, good), t)
  {
  }

  lemma FillingInnocent(c: Config, s: State, t: nat, good: bool)
    requires WellFormed(s) && t < |s.calls| && Sure(s.calls[t].pc) && s.items[s.calls[t].pc.item].open
    ensures s.calls[t].pc.Fetching? ==> Innocent(s, StepFetching(c, s, t, good), t)
    ensures s.calls[t].pc.Truncating? ==> Innocent(s, StepTruncating(s, t, good), t)
    ensures s.calls[t].pc.Writing? ==> Innocent(s, StepWriting(c, s, t, good), t)
  {
  }

  lemma EntryInnocent(c: Config, s: State, t: nat, good: bool)
    requires WellFormed(s) && t < |s.calls| && (!HasItem(s.calls[t].pc) || LockHeld(s.calls[t].pc))
    ensures Innocent(s, StepCall(c, s, t, good), t)
  {
    var pc := s.calls[t].pc;
    if pc.Opening? {
      OpeningInnocent(s, t, good);
    } else if pc.Inserting? || pc.Releasing? {
      InsertingInnocent(s, t, good);
    } else if !Finished(pc) {
      LookupInnocent(s, t);
    }
  }

  lemma SectionInnocent(c: Config, s: State, t: nat, good: bool)
    requires WellFormed(s) && t < |s.calls| && HasItem(s.calls[t].pc) && !LockHeld(s.calls[t].pc)
    requires Sure(s.calls[t].pc) ==> s.items[s.calls[t].pc.item].open
    ensures Innocent(s, StepCall(c, s, t, good), t)
  {
    match s.calls[t].pc
    case AwaitRead(i) => WaitingInnocent(s, t, i);
    case AwaitWrite(_) => QueueingInnocent(s, t);
    case AwaitReread(i) => WaitingInnocent(s, t, i);
    case Checking(_) => CheckingInnocent(c, s, t, good);
    case Rechecking(_) => CheckingInnocent(c, s, t, good);
    case Measuring(_) => ReadingInnocent(c, s, t, good);
    case Reading(_, _) => ReadingInnocent(c, s, t, good);
    case _ => FillingInnocent(c, s, t, good);
  }

  lemma CallInnocent(c: Config, s: State, t: nat, good: bool)
    requires WellFormed(s) && SureIsOpen(s) && t < |s.calls|
    ensures Innocent(s, StepCall(c, s, t, good), t)
  {
    if HasItem(s.calls[t].pc) && !LockHeld(s.calls[t].pc) {
      SectionInnocent(c, s, t, good);
    } else {
      EntryInnocent(c, s, t, good);
    }
  }

  /** Nothing dooms a call but a drop of its item while it waits, and nothing saves it. */
  lemma StepDooms(c: Config, s: State, a: Action, t: nat)
    requires WellFormed(s) && Locks(s) && SureIsOpen(s) && t < |s.calls|
    ensures t < |Step(c, s, a).calls|
    ensures Doomed(Step(c, s, a), t) <==> Doomed(s, t) || DropsUnder(s, a, t)
  {
    if a.Move? && a.call < |s.calls| { CallInnocent(c, s, a.call, a.good); }
    if a.Drop? && HasItem(s.calls[t].pc) { assert ItemLockSound(s, s.calls[t].pc.item); }
  }

  lemma StepSure(c: Config, s: State, a: Action)
    requires WellFormed(s) && Locks(s) && SureIsOpen(s)
    ensures SureIsOpen(Step(c, s, a))
  {
    var s' := Step(c, s, a);
    if a.Move? && a.call < |s.calls| { CallInnocent(c, s, a.call, a.good); }
    forall t | 0 <= t < |s'.calls| && Sure(s'.calls[t].pc) ensures s'.items[s'.calls[t].pc.item].open {
      if a.Drop? { assert ItemLockSound(s, s.calls[t].pc.item); }
    }
  }

  lemma {:induction false} RunSure(c: Config, s: State, acts: seq<Action>)
    requires Quiet(s)
    ensures SureIsOpen(Run(c, s, acts))
    decreases |acts|
  {
    if acts != [] {
      var before := acts[..|acts| - 1];
      RunSure(c, s, before);
      RunKeepsLocks(c, s, before);
      StepSure(c, Run(c, s, before), acts[|acts| - 1]);
    }
  }

  // ---------------------------------------------------------------- runs

  ghost function DropsUnderAfter(c: Config, s: State, t: nat): (seq<Action>, Action) -> bool
    requires WellFormed(s)
  {
    (before, a) => DropsUnder(Run(c, s, before), a, t)
  }

  /** Some step of the run drops the item of call `t` while it waits to read. */
  ghost predicate DroppedUnder(c: Config, s: State, acts: seq<Action>, t: nat)
    requires WellFormed(s)
  {
    Ever(DropsUnderAfter(c, s, t), acts)
  }

  lemma NewCallIsSafe(c: Config, s: State, a: Action, t: nat)
    requires WellFormed(s) && t >= |s.calls|
    ensures !Doomed(Step(c, s, a), t) && !DropsUnder(s, a, t)
  {
    if a.Move? && a.call < |s.calls| { MovesItself(c, s, a.call, a.good); }
  }

  lemma {:induction false} DoomedExactly(c: Config, s: State, acts: seq<Action>, t: nat)
    requires Quiet(s)
    ensures Doomed(Run(c, s, acts), t) <==> DroppedUnder(c, s, acts, t)
    decreases |acts|
  {
    if acts != [] {
      var before, a := acts[..|acts| - 1], acts[|acts| - 1];
      var b := Run(c, s, before);
      DoomedExactly(c, s, before, t);
      EverMore(DropsUnderAfter(c, s, t), acts);
      RunKeepsLocks(c, s, before);
      RunSure(c, s, before);
      if t < |b.calls| { StepDooms(c, b, a, t); } else { NewCallIsSafe(c, b, a, t); }
    }
  }

  /** In every run, a finished call has crashed if and only if its item was dropped while it waited
      between its fill, or its second look, and its reading. */
  lemma CrashedExactly(c: Config, s: State, acts: seq<Action>, t: nat)
    requires Quiet(s) && t < |Run(c, s, acts).calls| && Finished(Run(c, s, acts).calls[t].pc)
    ensures Run(c, s, acts).calls[t].pc.Crashed? <==> DroppedUnder(c, s, acts, t)
  {
    DoomedExactly(c, s, acts, t);
  }

  // ---------------------------------------------------------------- who gets to write

  /** Call `t` holds the read lock of item `i` and will never let go of it. */
  predicate Sticks(s: State, t: nat, i: nat)
    requires WellFormed(s)
  {
    && t < |s.calls|
    && (s.calls[t].pc == Crashed(i) || (s.calls[t].pc == Measuring(i) && !s.items[i].open))
  }

  /** Call `u` waits to write to item `i`. */
  predicate Queues(s: State, u: nat, i: nat) { u < |s.calls| && s.calls[u].pc == AwaitWrite(i) }

  lemma StepSticks(c: Config, s: State, a: Action, t: nat, u: nat, i: nat)
    requires WellFormed(s) && Locks(s) && SureIsOpen(s) && Sticks(s, t, i) && Queues(s, u, i)
    ensures Sticks(Step(c, s, a), t, i) && Queues(Step(c, s, a), u, i)
  {
    assert ItemLockSound(s, i);
    assert t in s.items[i].readers;
    if a.Move? && a.call < |s.calls| {
      CallInnocent(c, s, a.call, a.good);
      if a.call != u { MovesItself(c, s, a.call, a.good); }
    }
  }

  lemma {:induction false} SticksForEver(c: Config, s: State, acts: seq<Action>, t: nat, u: nat, i: nat)
    requires WellFormed(s) && Locks(s) && SureIsOpen(s) && Sticks(s, t, i) && Queues(s, u, i)
    ensures Locks(Run(c, s, acts)) && SureIsOpen(Run(c, s, acts))
    ensures Sticks(Run(c, s, acts), t, i) && Queues(Run(c, s, acts), u, i)
    decreases |acts|
  {
    if acts != [] {
      var before := acts[..|acts| - 1];
      SticksForEver(c, s, before, t, u, i);
      StepSticks(c, Run(c, s, before), acts[|acts| - 1], t, u, i);
      StepSure(c, Run(c, s, before), acts[|acts| - 1]);
      StepKeepsLocks(c, Run(c, s, before), acts[|acts| - 1]);
    }
  }

  ghost predicate SomeoneSticks(s: State, i: nat)
    requires WellFormed(s)
  {
    exists t :: Sticks(s, t, i)
  }

  /** Call `x` has let go of item `i`'s lock and is done; nothing is closed, and the others are where
      they were. */
  ghost predicate LetGo(s: State, s': State, x: nat, i: nat)
    requires x < |s.calls| && i < |s.items|
  {
    && |s'.items| == |s.items| && (forall j :: 0 <= j < |s.items| ==> s'.items[j].open == s.items[j].open)
    && s'.items[i].readers == s.items[i].readers - {x}
    && s'.items[i].writer == (if s.items[i].writer == Some(x) then None else s.items[i].writer)
    && OthersStay(s, s', x) && (s'.calls[x].pc.Failed? || s'.calls[x].pc.Returned?)
  }

  lemma ReaderLeaves(c: Config, s: State, x: nat, i: nat)
    requires WellFormed(s) && Locks(s) && x < |s.calls| && i < |s.items| && !Sticks(s, x, i)
    requires ReadHeld(s.calls[x].pc, i)
    ensures LetGo(s, StepCall(c, s, x, false), x, i)
  {
    assert ItemLockSound(s, i);
  }

  lemma WriterLeaves(c: Config, s: State, x: nat, i: nat)
    requires WellFormed(s) && Locks(s) && x < |s.calls| && i < |s.items| && WriteHeld(s.calls[x].pc, i)
    ensures LetGo(s, StepCall(c, s, x, false), x, i)
  {
    assert ItemLockSound(s, i);
  }

  /** After `more`, call `u` holds the write lock of item `i`. */
  ghost predicate Enters(c: Config, s: State, u: nat, i: nat, more: seq<Action>)
    requires WellFormed(s)
  {
    u < |Run(c, s, more).calls| && Run(c, s, more).calls[u].pc == Rechecking(i)
  }

  ghost predicate CanEnter(c: Config, s: State, u: nat, i: nat)
    requires WellFormed(s)
  {
    exists more :: Enters(c, s, u, i, more)
  }

  /** Everybody who holds the item's lock can leave, so the call that waits for it gets in. */
  lemma {:induction false} GetsIn(c: Config, s: State, u: nat, i: nat) returns (more: seq<Action>)
    requires WellFormed(s) && Locks(s) && Queues(s, u, i) && !SomeoneSticks(s, i)
    ensures Enters(c, s, u, i, more)
    decreases s.items[i].writer.Some?, s.items[i].readers
  {
    assert ItemLockSound(s, i);
    if s.items[i].writer.None? && s.items[i].readers == {} {
      more := [Move(u, true)];
      assert more[..0] == [] && Run(c, s, more[..0]) == s;
      assert Run(c, s, more) == StepCall(c, s, u, true);
    } else {
      var x: nat :| x < |s.calls| && (ReadHeld(s.calls[x].pc, i) || WriteHeld(s.calls[x].pc, i));
      more := LeavesAndGetsIn(c, s, u, i, x);
    }
  }

  lemma {:induction false} LeavesAndGetsIn(c: Config, s: State, u: nat, i: nat, x: nat) returns (more: seq<Action>)
    requires WellFormed(s) && Locks(s) && Queues(s, u, i) && !SomeoneSticks(s, i)
    requires x < |s.calls| && (ReadHeld(s.calls[x].pc, i) || WriteHeld(s.calls[x].pc, i))
    ensures Enters(c, s, u, i, more)
    decreases s.items[i].writer.Some?, s.items[i].readers, 0
  {
    assert ItemLockSound(s, i);
    assert !Sticks(s, x, i);
    if ReadHeld(s.calls[x].pc, i) { ReaderLeaves(c, s, x, i); } else { WriterLeaves(c, s, x, i); }
    CallKeepsLocks(c, s, x, false);
    var s1 := StepCall(c, s, x, false);
    forall t ensures !Sticks(s1, t, i) { assert !Sticks(s, t, i); }
    var rest := GetsIn(c, s1, u, i);
    more := [Move(x, false)] + rest;
    FirstThen(c, s, Move(x, false), rest);
  }

  lemma FirstThen(c: Config, s: State, a: Action, rest: seq<Action>)
    requires WellFormed(s)
    ensures Run(c, s, [a] + rest) == Run(c, Step(c, s, a), rest)
  {
    var first := [a];
    assert first[..0] == [] && Run(c, s, first[..0]) == s;
    assert Run(c, s, first) == Step(c, s, a);
    RunOn(c, s, first, rest);
  }

  /** Call `u` waits for item `i` in every continuation. */
  ghost predicate ForEver(c: Config, s: State, u: nat, i: nat)
    requires WellFormed(s)
  {
    forall more: seq<Action> :: Queues(Run(c, s, more), u, i)
  }

  lemma ShutOut(c: Config, s: State, t: nat, u: nat, i: nat, more: seq<Action>)
    requires WellFormed(s) && Locks(s) && SureIsOpen(s) && Sticks(s, t, i) && Queues(s, u, i)
    ensures Queues(Run(c, s, more), u, i) && !Enters(c, s, u, i, more)
  {
    SticksForEver(c, s, more, t, u, i);
  }

  lemma WaitsForEver(c: Config, s: State, t: nat, u: nat, i: nat)
    requires WellFormed(s) && Locks(s) && SureIsOpen(s) && Sticks(s, t, i) && Queues(s, u, i)
    ensures ForEver(c, s, u, i)
  {
    forall more: seq<Action> ensures Queues(Run(c, s, more), u, i) { ShutOut(c, s, t, u, i, more); }
  }

  lemma GetsInExactly(c: Config, s: State, u: nat, i: nat)
    requires WellFormed(s) && Locks(s) && SureIsOpen(s) && Queues(s, u, i)
    ensures CanEnter(c, s, u, i) <==> !SomeoneSticks(s, i)
  {
    if SomeoneSticks(s, i) {
      var t :| Sticks(s, t, i);
      forall more ensures !Enters(c, s, u, i, more) { ShutOut(c, s, t, u, i, more); }
    } else {
      var more := GetsIn(c, s, u, i);
    }
  }

  /** In every run, a call that waits to write to an item can come to get in if and only if nobody has
      crashed on the item, and nobody is about to, holding its read lock. If somebody has or is, the call
      waits in every continuation. */
  lemma WriterGetsInExactly(c: Config, s: State, acts: seq<Action>, u: nat, i: nat)
    requires Quiet(s) && Queues(Run(c, s, acts), u, i)
    ensures CanEnter(c, Run(c, s, acts), u, i) <==> !SomeoneSticks(Run(c, s, acts), i)
    ensures SomeoneSticks(Run(c, s, acts), i) ==> ForEver(c, Run(c, s, acts), u, i)
  {
    var e := Run(c, s, acts);
    RunKeepsLocks(c, s, acts);
    RunSure(c, s, acts);
    GetsInExactly(c, e, u, i);
    if SomeoneSticks(e, i) {
      var t :| Sticks(e, t, i);
      WaitsForEver(c, e, t, u, i);
    }
  }

  /** Wherever a call waits to read an item that is no longer cached and another waits to write to it,
      a drop can come between; then the first crashes, and the second never gets in. */
  lemma DropDeadlocks(c: Config, s: State, t: nat, u: nat, i: nat)
    requires WellFormed(s) && t < |s.calls| && s.calls[t].pc == AwaitReread(i) && Queues(s, u, i)
    requires var x := s.items[i]; x.open && x.offered && x.writer == None && x.readers == {}
    requires !(s.items[i].key in s.entries && s.entries[s.items[i].key] == i)
    ensures var s' := Step(c, Step(c, Step(c, s, Drop(i)), Move(t, true)), Move(t, true));
            t < |s'.calls| && s'.calls[t].pc == Crashed(i) && Queues(s', u, i)
  {
    var s1 := Step(c, s, Drop(i));
    var s2 := Step(c, s1, Move(t, true));
    assert s2 == Goto(TakeRead(s1, i, t), t, Measuring(i));
  }
}
