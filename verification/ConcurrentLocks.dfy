/** The two levels of locking in GetOrCreate: on every interleaving, the lock fields say exactly which
    calls are inside which sections, a writer excludes everybody else, and only a crash leaves a lock
    behind. */
module ConcurrentLocks {
  import opened Common
  import opened ConcurrentCache

  ghost predicate CacheLockSound(s: State) {
    && (s.lock.Some? ==> s.lock.value < |s.calls|)
    && (forall t :: 0 <= t < |s.calls| ==> (s.lock == Some(t) <==> LockHeld(s.calls[t].pc)))
  }

  /** The lock of item `i`, against the program points of all calls. */
  ghost predicate ItemLockSound(s: State, i: nat)
    requires i < |s.items|
  {
    && (s.items[i].writer.Some? ==> s.items[i].writer.value < |s.calls| && s.items[i].readers == {})
    && (forall t :: t in s.items[i].readers ==> t < |s.calls|)
    && (forall t :: 0 <= t < |s.calls| ==> (t in s.items[i].readers <==> ReadHeld(s.calls[t].pc, i)))
    && (forall t :: 0 <= t < |s.calls| ==> (s.items[i].writer == Some(t) <==> WriteHeld(s.calls[t].pc, i)))
  }

  ghost predicate Locks(s: State) {
    CacheLockSound(s) && forall i :: 0 <= i < |s.items| ==> ItemLockSound(s, i)
  }

  /** A step of call `t` that touches no lock and stays in the same sections. */
  lemma SameSections(s: State, s': State, t: nat)
    requires WellFormed(s) && WellFormed(s') && Locks(s) && t < |s.calls|
    requires |s'.calls| == |s.calls| && s'.lock == s.lock && |s'.items| >= |s.items|
    requires forall u :: 0 <= u < |s.calls| && u != t ==> s'.calls[u] == s.calls[u]
    requires forall i :: 0 <= i < |s.items| ==>
               s'.items[i].writer == s.items[i].writer && s'.items[i].readers == s.items[i].readers
    requires forall i :: |s.items| <= i < |s'.items| ==> s'.items[i].writer == None && s'.items[i].readers == {}
    requires LockHeld(s'.calls[t].pc) == LockHeld(s.calls[t].pc)
    requires forall i: nat :: ReadHeld(s'.calls[t].pc, i) == ReadHeld(s.calls[t].pc, i)
    requires forall i: nat :: WriteHeld(s'.calls[t].pc, i) == WriteHeld(s.calls[t].pc, i)
    ensures Locks(s')
  {
    forall i | 0 <= i < |s'.items| ensures ItemLockSound(s', i) {
      if i < |s.items| { assert ItemLockSound(s, i); }
    }
  }

  /** A step of call `t` that takes or lets go of the cache's lock. */
  lemma CacheLockMoves(s: State, t: nat, pc: Pc, lock: Option<nat>)
    requires WellFormed(s) && Locks(s) && t < |s.calls|
    requires s.lock == None || s.lock == Some(t)
    requires lock == if LockHeld(pc) then Some(t) else None
    requires forall i: nat :: !ReadHeld(s.calls[t].pc, i) && !WriteHeld(s.calls[t].pc, i)
    requires forall i: nat :: !ReadHeld(pc, i) && !WriteHeld(pc, i)
    ensures Locks(Goto(s.(lock := lock), t, pc))
  {
    var s' := Goto(s.(lock := lock), t, pc);
    forall i | 0 <= i < |s'.items| ensures ItemLockSound(s', i) {
      assert ItemLockSound(s, i);
    }
  }

  /** A step of call `t` that takes or lets go of the lock of item `i`, to the sections `pc` says. */
  lemma ItemLockMoves(s: State, s': State, t: nat, i: nat)
    requires WellFormed(s) && Locks(s) && t < |s.calls| && i < |s.items|
    requires s'.lock == s.lock && |s'.items| == |s.items| && |s'.calls| == |s.calls|
    requires forall u :: 0 <= u < |s.calls| && u != t ==> s'.calls[u] == s.calls[u]
    requires forall j :: 0 <= j < |s.items| && j != i ==> s'.items[j] == s.items[j]
    requires !LockHeld(s.calls[t].pc) && !LockHeld(s'.calls[t].pc)
    requires forall j: nat :: j != i ==> !ReadHeld(s.calls[t].pc, j) && !WriteHeld(s.calls[t].pc, j)
    requires forall j: nat :: j != i ==> !ReadHeld(s'.calls[t].pc, j) && !WriteHeld(s'.calls[t].pc, j)
    requires s'.items[i].readers == if ReadHeld(s'.calls[t].pc, i) then s.items[i].readers + {t}
                                    else s.items[i].readers - {t}
    requires s'.items[i].writer == if WriteHeld(s'.calls[t].pc, i) then Some(t)
                                   else if s.items[i].writer == Some(t) then None else s.items[i].writer
    requires ReadHeld(s'.calls[t].pc, i) ==> s.items[i].writer.None?
    requires WriteHeld(s'.calls[t].pc, i) ==> s.items[i].writer.None? && s.items[i].readers == {}
    ensures Locks(s')
  {
    assert ItemLockSound(s, i);
    forall j | 0 <= j < |s'.items| ensures ItemLockSound(s', j) {
      assert ItemLockSound(s, j);
    }
  }

  lemma LookupKeepsLocks(c: Config, s: State, t: nat, good: bool)
    requires WellFormed(s) && Locks(s) && t < |s.calls|
    requires s.calls[t].pc.Lookup? || s.calls[t].pc.AwaitLock? || s.calls[t].pc.LookupLocked?
    ensures Locks(StepCall(c, s, t, good))
  {
    var s' := StepCall(c, s, t, good);
    match s.calls[t].pc
    case Lookup => SameSections(s, s', t);
    case AwaitLock => if s.lock.None? { CacheLockMoves(s, t, LookupLocked, Some(t)); }
    case LookupLocked =>
      if s.calls[t].key in s.entries { CacheLockMoves(s, t, s'.calls[t].pc, None); } else { SameSections(s, s', t); }
  }

  lemma CreateKeepsLocks(c: Config, s: State, t: nat, good: bool)
    requires WellFormed(s) && Locks(s) && t < |s.calls|
    requires s.calls[t].pc.Opening? || s.calls[t].pc.Inserting? || s.calls[t].pc.Releasing?
    ensures Locks(StepCall(c, s, t, good))
  {
    var s' := StepCall(c, s, t, good);
    match s.calls[t].pc
    case Opening =>
      if !good { CacheLockMoves(s, t, Failed, None); } else if s' != s { SameSections(s, s', t); }
    case Inserting(_) =>
      if good { SameSections(s, s', t); } else { CacheLockMoves(s, t, Failed, None); }
    case Releasing(i) => CacheLockMoves(s, t, AwaitRead(i), None);
  }

  /** Program points between the sections. */
  predicate Outside(pc: Pc) {
    !LockHeld(pc) && !pc.Crashed? && !(HasItem(pc) && (ReadHeld(pc, pc.item) || WriteHeld(pc, pc.item)))
  }

  lemma ReadTaken(s: State, t: nat, i: nat, pc: Pc)
    requires WellFormed(s) && Locks(s) && t < |s.calls| && i < |s.items| && Outside(s.calls[t].pc)
    requires s.items[i].writer.None? && ReadHeld(pc, i)
    ensures Locks(Goto(TakeRead(s, i, t), t, pc))
  {
    assert ItemLockSound(s, i);
    ItemLockMoves(s, Goto(TakeRead(s, i, t), t, pc), t, i);
  }

  lemma ReadLet(s: State, t: nat, i: nat, pc: Pc)
    requires WellFormed(s) && Locks(s) && t < |s.calls| && i < |s.items| && ReadHeld(s.calls[t].pc, i) && Outside(pc)
    ensures Locks(Goto(LetRead(s, i, t), t, pc))
  {
    assert ItemLockSound(s, i);
    ItemLockMoves(s, Goto(LetRead(s, i, t), t, pc), t, i);
  }

  lemma WriteTaken(s: State, t: nat, i: nat, pc: Pc)
    requires WellFormed(s) && Locks(s) && t < |s.calls| && i < |s.items| && Outside(s.calls[t].pc)
    requires s.items[i].writer.None? && s.items[i].readers == {} && WriteHeld(pc, i)
    ensures Locks(Goto(TakeWrite(s, i, t), t, pc))
  {
    assert ItemLockSound(s, i);
    ItemLockMoves(s, Goto(TakeWrite(s, i, t), t, pc), t, i);
  }

  lemma WriteLet(s: State, t: nat, i: nat, pc: Pc)
    requires WellFormed(s) && Locks(s) && t < |s.calls| && i < |s.items| && WriteHeld(s.calls[t].pc, i) && Outside(pc)
    ensures Locks(Goto(LetWrite(s, i), t, pc))
  {
    assert ItemLockSound(s, i);
    ItemLockMoves(s, Goto(LetWrite(s, i), t, pc), t, i);
  }

  lemma PathsIrrelevant(s: State, k: Key)
    requires WellFormed(s) && Locks(s)
    ensures WellFormed(Unlink(s, k)) && Locks(Unlink(s, k))
  {
    forall i | 0 <= i < |s.items| ensures ItemLockSound(Unlink(s, k), i) { assert ItemLockSound(s, i); }
  }

  lemma CheckingKeepsLocks(c: Config, s: State, t: nat, good: bool)
    requires WellFormed(s) && Locks(s) && t < |s.calls| && s.calls[t].pc.Checking?
    ensures Locks(StepChecking(c, s, t, good))
  {
    var i := s.calls[t].pc.item;
    ReadLet(s, t, i, Failed);
    ReadLet(s, t, i, AwaitWrite(i));
    SameSections(s, Goto(s, t, Measuring(i)), t);
  }

  lemma MeasuringKeepsLocks(c: Config, s: State, t: nat, good: bool)
    requires WellFormed(s) && Locks(s) && t < |s.calls| && s.calls[t].pc.Measuring?
    ensures Locks(StepMeasuring(c, s, t, good))
  {
    var i := s.calls[t].pc.item;
    ReadLet(s, t, i, Ending(c, s.calls[t].key, []));
    SameSections(s, Goto(s, t, Crashed(i)), t);
    SameSections(s, Goto(s, t, Reading(i, |Content(s, i)|)), t);
  }

  lemma ReadingKeepsLocks(c: Config, s: State, t: nat, good: bool)
    requires WellFormed(s) && Locks(s) && t < |s.calls| && s.calls[t].pc.Reading?
    ensures Locks(StepReading(c, s, t, good))
  {
    ReadLet(s, t, s.calls[t].pc.item, StepReading(c, s, t, good).calls[t].pc);
  }

  lemma RecheckingKeepsLocks(c: Config, s: State, t: nat, good: bool)
    requires WellFormed(s) && Locks(s) && t < |s.calls| && s.calls[t].pc.Rechecking?
    ensures Locks(StepRechecking(c, s, t, good))
  {
    var i := s.calls[t].pc.item;
    WriteLet(s, t, i, Failed);
    WriteLet(s, t, i, AwaitReread(i));
    SameSections(s, Goto(s, t, Fetching(i)), t);
  }

  lemma FetchingKeepsLocks(c: Config, s: State, t: nat, good: bool)
    requires WellFormed(s) && Locks(s) && t < |s.calls| && s.calls[t].pc.Fetching?
    ensures Locks(StepFetching(c, s, t, good))
  {
    var i := s.calls[t].pc.item;
    if good {
      SameSections(s, StepFetching(c, s, t, good), t);
    } else {
      PathsIrrelevant(s, s.items[i].key);
      WriteLet(Unlink(s, s.items[i].key), t, i, Failed);
    }
  }

  lemma TruncatingKeepsLocks(s: State, t: nat, good: bool)
    requires WellFormed(s) && Locks(s) && t < |s.calls| && s.calls[t].pc.Truncating?
    ensures Locks(StepTruncating(s, t, good))
  {
    if good { SameSections(s, StepTruncating(s, t, good), t); } else { WriteLet(s, t, s.calls[t].pc.item, Failed); }
  }

  lemma WritingKeepsLocks(c: Config, s: State, t: nat, good: bool)
    requires WellFormed(s) && Locks(s) && t < |s.calls| && s.calls[t].pc.Writing?
    ensures Locks(StepWriting(c, s, t, good))
  {
    var i := s.calls[t].pc.item;
    assert ItemLockSound(s, i);
    if good {
      ItemLockMoves(s, StepWriting(c, s, t, good), t, i);
    } else {
      PathsIrrelevant(s, s.items[i].key);
      WriteLet(Unlink(s, s.items[i].key), t, i, Failed);
    }
  }

  lemma ReadersKeepLocks(c: Config, s: State, t: nat, good: bool)
    requires WellFormed(s) && Locks(s) && t < |s.calls|
    requires s.calls[t].pc.Checking? || s.calls[t].pc.Measuring? || s.calls[t].pc.Reading?
    ensures Locks(StepCall(c, s, t, good))
  {
    match s.calls[t].pc
    case Checking(_) => CheckingKeepsLocks(c, s, t, good);
    case Measuring(_) => MeasuringKeepsLocks(c, s, t, good);
    case Reading(_, _) => ReadingKeepsLocks(c, s, t, good);
  }

  lemma WriterKeepsLocks(c: Config, s: State, t: nat, good: bool)
    requires WellFormed(s) && Locks(s) && t < |s.calls|
    requires var pc := s.calls[t].pc; pc.Rechecking? || pc.Fetching? || pc.Truncating? || pc.Writing?
    ensures Locks(StepCall(c, s, t, good))
  {
    match s.calls[t].pc
    case Rechecking(_) => RecheckingKeepsLocks(c, s, t, good);
    case Fetching(_) => FetchingKeepsLocks(c, s, t, good);
    case Truncating(_, _) => TruncatingKeepsLocks(s, t, good);
    case Writing(_, _) => WritingKeepsLocks(c, s, t, good);
  }

  lemma WaitingKeepsLocks(c: Config, s: State, t: nat, good: bool)
    requires WellFormed(s) && Locks(s) && t < |s.calls|
    requires var pc := s.calls[t].pc; pc.AwaitRead? || pc.AwaitWrite? || pc.AwaitReread?
    ensures Locks(StepCall(c, s, t, good))
  {
    match s.calls[t].pc
    case AwaitRead(i) => if s.items[i].writer.None? { ReadTaken(s, t, i, Checking(i)); }
    case AwaitWrite(i) => if s.items[i].writer.None? && s.items[i].readers == {} { WriteTaken(s, t, i, Rechecking(i)); }
    case AwaitReread(i) => if s.items[i].writer.None? { ReadTaken(s, t, i, Measuring(i)); }
  }

  lemma CallKeepsLocks(c: Config, s: State, t: nat, good: bool)
    requires WellFormed(s) && Locks(s) && t < |s.calls|
    ensures Locks(StepCall(c, s, t, good))
  {
    var pc := s.calls[t].pc;
    if Finished(pc) {
    } else if pc.Lookup? || pc.AwaitLock? || pc.LookupLocked? {
      LookupKeepsLocks(c, s, t, good);
    } else if LockHeld(pc) {
      CreateKeepsLocks(c, s, t, good);
    } else if pc.AwaitRead? || pc.AwaitWrite? || pc.AwaitReread? {
      WaitingKeepsLocks(c, s, t, good);
    } else if pc.Checking? || pc.Measuring? || pc.Reading? {
      ReadersKeepLocks(c, s, t, good);
    } else {
      WriterKeepsLocks(c, s, t, good);
    }
  }

  lemma StepKeepsLocks(c: Config, s: State, a: Action)
    requires WellFormed(s) && Locks(s)
    ensures Locks(Step(c, s, a))
  {
    var s' := Step(c, s, a);
    match a
    case Begin(k) =>
      assert !HasItem(Lookup);
      forall i | 0 <= i < |s'.items| ensures ItemLockSound(s', i) {
        assert ItemLockSound(s, i);
        assert s'.calls[|s.calls|].pc == Lookup;
      }
    case Move(t, good) => if t < |s.calls| { CallKeepsLocks(c, s, t, good); }
    case Evict(k) =>
      forall i | 0 <= i < |s'.items| ensures ItemLockSound(s', i) { assert ItemLockSound(s, i); }
    case Drop(d) =>
      forall i | 0 <= i < |s'.items| ensures ItemLockSound(s', i) { assert ItemLockSound(s, i); }
  }

  /** Before any call: nothing open, nothing cached, any files on disk. */
  predicate Quiet(s: State) {
    s.items == [] && s.entries == map[] && s.calls == [] && s.lock == None && WellFormed(s)
  }

  lemma {:induction false} RunKeepsLocks(c: Config, s: State, acts: seq<Action>)
    requires WellFormed(s) && Locks(s)
    ensures Locks(Run(c, s, acts))
    decreases |acts|
  {
    if acts != [] {
      RunKeepsLocks(c, s, acts[..|acts| - 1]);
      StepKeepsLocks(c, Run(c, s, acts[..|acts| - 1]), acts[|acts| - 1]);
    }
  }

  /** Readers and the writer of an item exclude each other, and so do two holders of the cache's lock. */
  lemma SectionsExclude(c: Config, s: State, acts: seq<Action>, t: nat, u: nat)
    requires Quiet(s) && t < |Run(c, s, acts).calls| && u < |Run(c, s, acts).calls| && t != u
    ensures var p, q := Run(c, s, acts).calls[t].pc, Run(c, s, acts).calls[u].pc;
            && !(LockHeld(p) && LockHeld(q))
            && forall i: nat :: WriteHeld(p, i) ==> !WriteHeld(q, i) && !ReadHeld(q, i)
  {
    RunKeepsLocks(c, s, acts);
    var e := Run(c, s, acts);
    var p, q := e.calls[t].pc, e.calls[u].pc;
    forall i: nat | WriteHeld(p, i) ensures !WriteHeld(q, i) && !ReadHeld(q, i) {
      assert ItemLockSound(e, i);
    }
  }

  // ---------------------------------------------------------------- what is left locked

  ghost predicate AllFinished(s: State) { forall t :: 0 <= t < |s.calls| ==> Finished(s.calls[t].pc) }

  ghost predicate AllFree(s: State) {
    s.lock == None && forall i :: 0 <= i < |s.items| ==> s.items[i].writer == None && s.items[i].readers == {}
  }

  ghost predicate SomeCrashed(s: State) { exists t :: 0 <= t < |s.calls| && s.calls[t].pc.Crashed? }

  /** Once every call has finished, the cache's lock and every item's write lock are free, and an
      item's read lock is held by exactly the calls that crashed on it. So everything is free if and
      only if no call crashed. */
  lemma LeftLocked(c: Config, s: State, acts: seq<Action>)
    requires Quiet(s) && AllFinished(Run(c, s, acts))
    ensures var e := Run(c, s, acts);
            && e.lock == None
            && (forall i :: 0 <= i < |e.items| ==> e.items[i].writer == None)
            && (forall i: nat, t: nat :: i < |e.items| ==>
                  (t in e.items[i].readers <==> t < |e.calls| && e.calls[t].pc == Crashed(i)))
            && (AllFree(e) <==> !SomeCrashed(e))
  {
    RunKeepsLocks(c, s, acts);
    var e := Run(c, s, acts);
    forall i: nat | i < |e.items|
      ensures e.items[i].writer == None
      ensures forall t: nat :: t in e.items[i].readers <==> t < |e.calls| && e.calls[t].pc == Crashed(i)
    {
      assert ItemLockSound(e, i);
    }
    if SomeCrashed(e) {
      var t: nat :| t < |e.calls| && e.calls[t].pc.Crashed?;
      assert t in e.items[e.calls[t].pc.item].readers;
    } else {
      forall i | 0 <= i < |e.items| ensures e.items[i].readers == {} {
        assert forall t :: t in e.items[i].readers ==> e.calls[t].pc == Crashed(i);
      }
    }
  }

  /** The other calls are where they were, and call `t` is for the same key as ever. */
  ghost predicate OthersStay(s: State, s': State, t: nat) {
    && |s'.calls| == |s.calls| && (t < |s.calls| ==> s'.calls[t].key == s.calls[t].key)
    && forall u :: 0 <= u < |s.calls| && u != t ==> s'.calls[u] == s.calls[u]
  }

  lemma EntryMovesItself(c: Config, s: State, t: nat, good: bool)
    requires WellFormed(s) && t < |s.calls| && (!HasItem(s.calls[t].pc) || LockHeld(s.calls[t].pc))
    ensures OthersStay(s, StepCall(c, s, t, good), t)
  {
  }

  lemma WaitingMovesItself(c: Config, s: State, t: nat, good: bool)
    requires WellFormed(s) && t < |s.calls|
    requires var pc := s.calls[t].pc;
             pc.AwaitRead? || pc.AwaitWrite? || pc.AwaitReread? || pc.Checking? || pc.Rechecking?
    ensures OthersStay(s, StepCall(c, s, t, good), t)
  {
  }

  lemma MovesItself(c: Config, s: State, t: nat, good: bool)
    requires WellFormed(s) && t < |s.calls|
    ensures OthersStay(s, StepCall(c, s, t, good), t)
  {
    var pc := s.calls[t].pc;
    if !HasItem(pc) || LockHeld(pc) {
      EntryMovesItself(c, s, t, good);
    } else if pc.AwaitRead? || pc.AwaitWrite? || pc.AwaitReread? || pc.Checking? || pc.Rechecking? {
      WaitingMovesItself(c, s, t, good);
    }
  }
}
