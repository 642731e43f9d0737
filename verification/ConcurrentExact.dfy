/** Exact bytes from GetOrCreate on every interleaving in which no file is opened again while a call on
    an evicted item still uses it and has not yet made it whole: every item is filled at most once,
    from position zero, and every call that returns does so with the chunk. */
module ConcurrentExact {
  import opened Common
  import opened Reachability
  import opened ConcurrentCache
  import opened ConcurrentLocks

  /** Items, entries, paths and calls agree on which key they are about, and no path leads to the file
      of a dropped item. */
  ghost predicate Names(s: State)
    requires WellFormed(s)
  {
    && (forall i :: 0 <= i < |s.items| ==>
          s.inodes[s.items[i].inode].key == s.items[i].key && (s.items[i].offered || s.items[i].open))
    && (forall k :: k in s.entries ==>
          s.items[s.entries[k]].key == k && s.items[s.entries[k]].open && s.items[s.entries[k]].offered)
    && (forall i :: 0 <= i < |s.items| && !s.items[i].open && s.items[i].key in s.paths ==>
          s.paths[s.items[i].key] != s.items[i].inode)
    && (forall k :: k in s.paths ==> s.inodes[s.paths[k]].key == k)
    && (forall t :: 0 <= t < |s.calls| && HasItem(s.calls[t].pc) ==> s.items[s.calls[t].pc.item].key == s.calls[t].key)
  }

  ghost predicate Uses(s: State, t: nat, i: nat) {
    t < |s.calls| && HasItem(s.calls[t].pc) && s.calls[t].pc.item == i
  }

  ghost predicate Cached(s: State, i: nat)
    requires i < |s.items|
  {
    s.items[i].key in s.entries && s.entries[s.items[i].key] == i
  }

  /** Reachable by a present or future call. */
  ghost predicate Live(s: State, i: nat) {
    i < |s.items| && (Cached(s, i) || exists t :: Uses(s, t, i))
  }

  /** The item's file is as long as the chunk. */
  predicate Whole(c: Config, s: State, i: nat)
    requires WellFormed(s) && i < |s.items|
  {
    |Content(s, i)| == |c.chunk(s.items[i].key)|
  }

  /** Two live items have the same file open only if it is whole. */
  ghost predicate Alone(c: Config, s: State)
    requires WellFormed(s)
  {
    forall i: nat, j: nat :: Live(s, i) && Live(s, j) && i != j && s.items[i].inode == s.items[j].inode ==>
        Whole(c, s, i)
  }

  /** Handle position, content and number of fills move together: unfilled at the start of the file,
      or filled once, standing at the end of the exact chunk. */
  ghost predicate ItemGood(c: Config, s: State, i: nat)
    requires WellFormed(s) && i < |s.items|
  {
    || (s.items[i].pos == 0 && s.items[i].fills == 0)
    || (s.items[i].fills == 1 && s.items[i].pos == |Content(s, i)| && Content(s, i) == c.chunk(s.items[i].key))
  }

  ghost predicate ItemsGood(c: Config, s: State)
    requires WellFormed(s)
  {
    && (forall i: nat :: Live(s, i) ==> ItemGood(c, s, i))
    && (forall i :: 0 <= i < |s.items| ==> s.items[i].fills <= 1)
  }

  /** Any file of full length holds the chunk. */
  ghost predicate FullIsExact(c: Config, s: State) {
    forall n :: 0 <= n < |s.inodes| ==>
      |s.inodes[n].content| == |c.chunk(s.inodes[n].key)| ==> s.inodes[n].content == c.chunk(s.inodes[n].key)
  }

  /** What each call knows at its program point. */
  ghost predicate CallGood(c: Config, s: State, t: nat)
    requires WellFormed(s) && t < |s.calls|
  {
    var k := s.calls[t].key;
    match s.calls[t].pc
    case Opening => k !in s.entries
    case Inserting(i) => k !in s.entries && !s.items[i].offered
    case Fetching(i) => s.items[i].open && |Content(s, i)| != |c.chunk(k)|
    case Truncating(i, buf) => s.items[i].open && |Content(s, i)| != |c.chunk(k)| && buf == c.chunk(k)
    case Writing(i, buf) =>
      s.items[i].open && Content(s, i) == [] && s.items[i].pos == 0 && s.items[i].fills == 0 && buf == c.chunk(k)
    case AwaitReread(i) => |Content(s, i)| == |c.chunk(k)|
    case Measuring(i) => |Content(s, i)| == |c.chunk(k)|
    case Reading(i, size) => s.items[i].open && size == |Content(s, i)| == |c.chunk(k)|
    case Returned(result) => result == c.chunk(k)
    case Crashed(i) => !s.items[i].open
    case _ => true
  }

  ghost predicate Bytes(c: Config, s: State)
    requires WellFormed(s)
  {
    Alone(c, s) && ItemsGood(c, s) && FullIsExact(c, s)
  }

  ghost predicate Calls(c: Config, s: State)
    requires WellFormed(s)
  {
    forall t :: 0 <= t < |s.calls| ==> CallGood(c, s, t)
  }

  ghost predicate Inv(c: Config, s: State) {
    WellFormed(s) && Locks(s) && Names(s) && Bytes(c, s) && Calls(c, s)
  }

  // ---------------------------------------------------------------- steps that move no bytes

  /** The files and the handles' positions are as they were. */
  ghost predicate SameBytes(s: State, s': State) {
    && s'.inodes == s.inodes && |s'.items| == |s.items|
    && forall i :: 0 <= i < |s.items| ==>
         && s'.items[i].key == s.items[i].key && s'.items[i].inode == s.items[i].inode
         && s'.items[i].pos == s.items[i].pos && s'.items[i].fills == s.items[i].fills
  }

  lemma BytesKept(c: Config, s: State, s': State)
    requires WellFormed(s) && WellFormed(s') && Bytes(c, s) && SameBytes(s, s')
    requires forall i: nat :: Live(s', i) ==> Live(s, i)
    ensures Bytes(c, s')
  {
  }

  /** `s'` differs from `s` only in the locks, removed paths, and where call `t` is. */
  ghost predicate OnlyMoves(s: State, s': State, t: nat)
    requires t < |s.calls|
  {
    && s'.inodes == s.inodes && s'.entries == s.entries
    && (forall k :: k in s'.paths ==> k in s.paths && s'.paths[k] == s.paths[k])
    && |s'.items| == |s.items| && |s'.calls| == |s.calls|
    && (forall i :: 0 <= i < |s.items| ==>
          s'.items[i] == s.items[i].(writer := s'.items[i].writer, readers := s'.items[i].readers))
    && (forall u :: 0 <= u < |s.calls| && u != t ==> s'.calls[u] == s.calls[u])
    && s'.calls[t].key == s.calls[t].key
  }

  /** The item call `t` moves on with is one it could already reach. */
  ghost predicate MovesTo(s: State, t: nat, pc: Pc)
    requires t < |s.calls|
  {
    HasItem(pc) ==> Live(s, pc.item) && s.items[pc.item].key == s.calls[t].key
  }

  lemma LiveShrinks(s: State, s': State, t: nat)
    requires t < |s.calls| && OnlyMoves(s, s', t) && MovesTo(s, t, s'.calls[t].pc)
    ensures forall i: nat :: Live(s', i) ==> Live(s, i)
  {
    forall i: nat | Live(s', i) ensures Live(s, i) {
      if !Cached(s', i) {
        var u: nat :| Uses(s', u, i);
        if u != t { assert Uses(s, u, i); }
      } else {
        assert Cached(s, i);
      }
    }
  }

  lemma NamesMoved(s: State, s': State, t: nat)
    requires WellFormed(s) && WellFormed(s') && Names(s)
    requires t < |s.calls| && OnlyMoves(s, s', t) && MovesTo(s, t, s'.calls[t].pc)
    ensures Names(s')
  {
  }

  lemma OtherCallsMoved(c: Config, s: State, s': State, t: nat, u: nat)
    requires WellFormed(s) && WellFormed(s') && t < |s.calls| && OnlyMoves(s, s', t)
    requires u < |s.calls| && u != t && CallGood(c, s, u)
    ensures CallGood(c, s', u)
  {
  }

  lemma MoveKeepsInv(c: Config, s: State, s': State, t: nat)
    requires Inv(c, s) && WellFormed(s') && Locks(s')
    requires t < |s.calls| && OnlyMoves(s, s', t) && MovesTo(s, t, s'.calls[t].pc)
    requires CallGood(c, s', t)
    ensures Inv(c, s')
  {
    LiveShrinks(s, s', t);
    BytesKept(c, s, s');
    NamesMoved(s, s', t);
    forall u | 0 <= u < |s'.calls| ensures CallGood(c, s', u) {
      if u != t { OtherCallsMoved(c, s, s', t, u); }
    }
  }

  /** The step leaves bytes alone and puts call `t` where it may be. */
  ghost predicate Mere(c: Config, s: State, s': State, t: nat)
    requires WellFormed(s') && t < |s.calls|
  {
    OnlyMoves(s, s', t) && MovesTo(s, t, s'.calls[t].pc) && CallGood(c, s', t)
  }

  predicate AtEntry(pc: Pc, good: bool) {
    pc.Lookup? || pc.AwaitLock? || pc.LookupLocked? || pc.Releasing? || (!good && (pc.Opening? || pc.Inserting?))
  }

  lemma LookupMoves(c: Config, s: State, t: nat)
    requires WellFormed(s) && Names(s) && t < |s.calls|
    requires s.calls[t].pc.Lookup? || s.calls[t].pc.LookupLocked?
    ensures Mere(c, s, StepLookup(s, t), t) && Mere(c, s, StepLookupLocked(s, t), t)
  {
    if s.calls[t].key in s.entries { assert Cached(s, s.entries[s.calls[t].key]); }
  }

  lemma LockMoves(c: Config, s: State, t: nat)
    requires WellFormed(s) && Names(s) && t < |s.calls| && s.calls[t].pc.AwaitLock?
    ensures Mere(c, s, StepAwaitLock(s, t), t)
  {
  }

  lemma LeavingMoves(c: Config, s: State, t: nat)
    requires WellFormed(s) && Names(s) && t < |s.calls|
    ensures s.calls[t].pc.Releasing? ==> Mere(c, s, StepReleasing(s, t), t)
    ensures s.calls[t].pc.Opening? ==> Mere(c, s, StepOpening(s, t, false), t)
    ensures s.calls[t].pc.Inserting? ==> Mere(c, s, StepInserting(s, t, false), t)
  {
    if HasItem(s.calls[t].pc) { assert Uses(s, t, s.calls[t].pc.item); }
  }

  lemma EntryMoves(c: Config, s: State, t: nat, good: bool)
    requires WellFormed(s) && Names(s) && t < |s.calls| && AtEntry(s.calls[t].pc, good)
    ensures Mere(c, s, StepCall(c, s, t, good), t)
  {
    if s.calls[t].pc.AwaitLock? {
      LockMoves(c, s, t);
    } else if s.calls[t].pc.Lookup? || s.calls[t].pc.LookupLocked? {
      LookupMoves(c, s, t);
    } else {
      LeavingMoves(c, s, t);
    }
  }

  lemma EntryKeepsInv(c: Config, s: State, t: nat, good: bool)
    requires Inv(c, s) && t < |s.calls| && AtEntry(s.calls[t].pc, good)
    ensures Inv(c, StepCall(c, s, t, good))
  {
    CallKeepsLocks(c, s, t, good);
    EntryMoves(c, s, t, good);
    MoveKeepsInv(c, s, StepCall(c, s, t, good), t);
  }

  lemma AwaitReadMoves(c: Config, s: State, t: nat, next: Pc)
    requires WellFormed(s) && Names(s) && t < |s.calls| && CallGood(c, s, t)
    requires (s.calls[t].pc.AwaitRead? && next.Checking?) || (s.calls[t].pc.AwaitReread? && next.Measuring?)
    requires next.item == s.calls[t].pc.item
    ensures Mere(c, s, StepAwaitRead(s, t, next), t)
  {
    assert Uses(s, t, next.item);
  }

  lemma AwaitWriteMoves(c: Config, s: State, t: nat)
    requires WellFormed(s) && Names(s) && t < |s.calls| && s.calls[t].pc.AwaitWrite?
    ensures Mere(c, s, StepAwaitWrite(s, t), t)
  {
    assert Uses(s, t, s.calls[t].pc.item);
  }

  lemma CheckingMoves(c: Config, s: State, t: nat, good: bool)
    requires WellFormed(s) && Names(s) && t < |s.calls| && s.calls[t].pc.Checking?
    ensures Mere(c, s, StepChecking(c, s, t, good), t)
  {
    assert Uses(s, t, s.calls[t].pc.item);
  }

  lemma MeasuringMoves(c: Config, s: State, t: nat, good: bool)
    requires WellFormed(s) && Names(s) && t < |s.calls| && s.calls[t].pc.Measuring? && CallGood(c, s, t)
    ensures Mere(c, s, StepMeasuring(c, s, t, good), t)
  {
    assert Uses(s, t, s.calls[t].pc.item);
  }

  /** What is read is what was measured, and a whole file of the chunk's length is the chunk. */
  lemma ReadingMoves(c: Config, s: State, t: nat, good: bool)
    requires WellFormed(s) && Names(s) && FullIsExact(c, s) && t < |s.calls| && s.calls[t].pc.Reading?
    requires CallGood(c, s, t)
    ensures Mere(c, s, StepReading(c, s, t, good), t)
  {
  }

  lemma RecheckingMoves(c: Config, s: State, t: nat, good: bool)
    requires WellFormed(s) && Names(s) && t < |s.calls| && s.calls[t].pc.Rechecking?
    ensures Mere(c, s, StepRechecking(c, s, t, good), t)
  {
    assert Uses(s, t, s.calls[t].pc.item);
  }

  lemma FetchingMoves(c: Config, s: State, t: nat, good: bool)
    requires WellFormed(s) && Names(s) && t < |s.calls| && s.calls[t].pc.Fetching? && CallGood(c, s, t)
    ensures Mere(c, s, StepFetching(c, s, t, good), t)
  {
    assert Uses(s, t, s.calls[t].pc.item);
  }

  lemma FailedTruncateMoves(c: Config, s: State, t: nat)
    requires WellFormed(s) && Names(s) && t < |s.calls| && s.calls[t].pc.Truncating?
    ensures Mere(c, s, StepTruncating(s, t, false), t)
  {
  }

  lemma FailedWriteMoves(c: Config, s: State, t: nat)
    requires WellFormed(s) && Names(s) && t < |s.calls| && s.calls[t].pc.Writing?
    ensures Mere(c, s, StepWriting(c, s, t, false), t)
  {
  }

  /** Every step inside the item's sections except the two that change the file. */
  lemma SectionMoves(c: Config, s: State, t: nat, good: bool)
    requires WellFormed(s) && Names(s) && FullIsExact(c, s) && t < |s.calls| && CallGood(c, s, t)
    requires var pc := s.calls[t].pc;
             HasItem(pc) && !pc.Inserting? && !pc.Releasing? && !(good && (pc.Truncating? || pc.Writing?))
    ensures Mere(c, s, StepCall(c, s, t, good), t)
  {
    match s.calls[t].pc
    case AwaitRead(i) => AwaitReadMoves(c, s, t, Checking(i));
    case AwaitWrite(_) => AwaitWriteMoves(c, s, t);
    case AwaitReread(i) => AwaitReadMoves(c, s, t, Measuring(i));
    case Checking(_) => CheckingMoves(c, s, t, good);
    case Measuring(_) => MeasuringMoves(c, s, t, good);
    case Reading(_, _) => ReadingMoves(c, s, t, good);
    case Rechecking(_) => RecheckingMoves(c, s, t, good);
    case Fetching(_) => FetchingMoves(c, s, t, good);
    case Truncating(_, _) => FailedTruncateMoves(c, s, t);
    case Writing(_, _) => FailedWriteMoves(c, s, t);
  }

  lemma SectionKeepsInv(c: Config, s: State, t: nat, good: bool)
    requires Inv(c, s) && t < |s.calls|
    requires var pc := s.calls[t].pc;
             HasItem(pc) && !pc.Inserting? && !pc.Releasing? && !(good && (pc.Truncating? || pc.Writing?))
    ensures Inv(c, StepCall(c, s, t, good))
  {
    assert CallGood(c, s, t);
    SectionMoves(c, s, t, good);
    CallKeepsLocks(c, s, t, good);
    MoveKeepsInv(c, s, StepCall(c, s, t, good), t);
  }

  // ---------------------------------------------------------------- opening and inserting

  lemma OpenedAlone(c: Config, s: State, t: nat, i: nat)
    requires WellFormed(s) && Names(s) && t < |s.calls| && s.calls[t].pc.Opening? && CallGood(c, s, t) && Live(s, i)
    requires s.calls[t].key in s.paths && !Careless(c, s, Move(t, true))
    ensures s.items[i].inode == s.paths[s.calls[t].key] ==> Whole(c, s, i)
  {
  }

  lemma OpeningLive(s: State, t: nat, i: nat)
    requires WellFormed(s) && t < |s.calls| && s.calls[t].pc.Opening? && Live(StepOpening(s, t, true), i)
    ensures i == |s.items| || Live(s, i)
  {
    var s' := StepOpening(s, t, true);
    if Cached(s', i) {
      assert i < |s.items| && Cached(s, i);
    } else if i < |s.items| {
      var u: nat :| Uses(s', u, i);
      assert u != t;
      assert Uses(s, u, i);
    }
  }

  lemma OpeningAlone(c: Config, s: State, t: nat)
    requires Inv(c, s) && t < |s.calls| && s.calls[t].pc.Opening? && !Careless(c, s, Move(t, true))
    ensures Alone(c, StepOpening(s, t, true))
  {
    var s' := StepOpening(s, t, true);
    assert CallGood(c, s, t);
    forall i: nat, j: nat | Live(s', i) && Live(s', j) && i != j && s'.items[i].inode == s'.items[j].inode
      ensures Whole(c, s', i)
    {
      OpeningLive(s, t, i);
      OpeningLive(s, t, j);
      if s.calls[t].key in s.paths { OpenedAlone(c, s, t, if i < |s.items| then i else j); }
    }
  }

  lemma OpeningBytes(c: Config, s: State, t: nat)
    requires Inv(c, s) && t < |s.calls| && s.calls[t].pc.Opening? && !Careless(c, s, Move(t, true))
    ensures Bytes(c, StepOpening(s, t, true))
  {
    var s' := StepOpening(s, t, true);
    OpeningAlone(c, s, t);
    forall i: nat | Live(s', i) ensures ItemGood(c, s', i) {
      OpeningLive(s, t, i);
      if i < |s.items| { assert ItemGood(c, s, i); }
    }
  }

  lemma OpeningKeepsInv(c: Config, s: State, t: nat)
    requires Inv(c, s) && t < |s.calls| && s.calls[t].pc.Opening? && !Careless(c, s, Move(t, true))
    ensures Inv(c, StepCall(c, s, t, true))
  {
    var s' := StepCall(c, s, t, true);
    CallKeepsLocks(c, s, t, true);
    OpeningBytes(c, s, t);
    OpeningNames(s, t);
    forall u | 0 <= u < |s'.calls| ensures CallGood(c, s', u) { OpeningCalls(c, s, t, u); }
  }

  lemma OpeningNames(s: State, t: nat)
    requires WellFormed(s) && Names(s) && t < |s.calls| && s.calls[t].pc.Opening?
    ensures Names(StepOpening(s, t, true))
  {
  }

  lemma OpeningCalls(c: Config, s: State, t: nat, u: nat)
    requires WellFormed(s) && Calls(c, s) && t < |s.calls| && s.calls[t].pc.Opening? && u < |s.calls|
    ensures CallGood(c, StepOpening(s, t, true), u)
  {
    assert CallGood(c, s, t) && CallGood(c, s, u);
  }

  lemma InsertingLive(s: State, t: nat)
    requires WellFormed(s) && Names(s) && t < |s.calls| && s.calls[t].pc.Inserting?
    ensures forall j: nat :: Live(StepInserting(s, t, true), j) ==> Live(s, j)
  {
    var s', i := StepInserting(s, t, true), s.calls[t].pc.item;
    assert Uses(s, t, i);
    forall j: nat | Live(s', j) ensures Live(s, j) {
      if !Cached(s', j) {
        var u: nat :| Uses(s', u, j);
        assert Uses(s, u, j);
      } else if j != i {
        assert Cached(s, j);
      }
    }
  }

  lemma InsertingCalls(c: Config, s: State, t: nat, u: nat)
    requires Inv(c, s) && t < |s.calls| && s.calls[t].pc.Inserting? && u < |s.calls|
    ensures CallGood(c, StepInserting(s, t, true), u)
  {
    assert CallGood(c, s, u);
    assert u != t ==> !LockHeld(s.calls[u].pc);
  }

  lemma InsertingKeepsInv(c: Config, s: State, t: nat)
    requires Inv(c, s) && t < |s.calls| && s.calls[t].pc.Inserting?
    ensures Inv(c, StepCall(c, s, t, true))
  {
    var s' := StepCall(c, s, t, true);
    CallKeepsLocks(c, s, t, true);
    assert CallGood(c, s, t);
    InsertingLive(s, t);
    BytesKept(c, s, s');
    forall u | 0 <= u < |s'.calls| ensures CallGood(c, s', u) { InsertingCalls(c, s, t, u); }
  }

  // ---------------------------------------------------------------- the two steps that change a file

  /** A writer changes the content of its file, and perhaps its own handle, and moves on. */
  function Rewrite(s: State, t: nat, content: seq<byte>, item: Item, pc: Pc): State
    requires WellFormed(s) && t < |s.calls| && HasItem(s.calls[t].pc)
  {
    var i := s.calls[t].pc.item;
    Goto(WithItem(WithContent(s, s.items[i].inode, content), i, item), t, pc)
  }

  ghost predicate GoodRewrite(c: Config, s: State, t: nat, content: seq<byte>, item: Item, pc: Pc)
    requires WellFormed(s) && t < |s.calls| && HasItem(s.calls[t].pc)
  {
    var i := s.calls[t].pc.item;
    && WriteHeld(s.calls[t].pc, i)
    && item == s.items[i].(pos := item.pos, fills := item.fills, writer := item.writer)
    && ((item.pos == 0 && item.fills == 0)
        || (item.pos == |content| && item.fills == 1 && content == c.chunk(item.key)))
    && (|content| == |c.chunk(item.key)| ==> content == c.chunk(item.key))
    && (content == Content(s, i) || !Whole(c, s, i))
    && HasItem(pc) && pc.item == i
  }

  lemma RewriteLive(s: State, t: nat, content: seq<byte>, item: Item, pc: Pc, j: nat)
    requires WellFormed(s) && t < |s.calls| && HasItem(s.calls[t].pc) && HasItem(pc) && pc.item == s.calls[t].pc.item
    requires item.key == s.items[pc.item].key && Live(Rewrite(s, t, content, item, pc), j)
    ensures Live(s, j)
  {
    var s' := Rewrite(s, t, content, item, pc);
    if !Cached(s', j) {
      var u: nat :| Uses(s', u, j);
      assert Uses(s, u, j);
    }
  }

  lemma RewriteAlone(c: Config, s: State, t: nat, content: seq<byte>, item: Item, pc: Pc)
    requires WellFormed(s) && Names(s) && Alone(c, s) && t < |s.calls| && HasItem(s.calls[t].pc)
    requires GoodRewrite(c, s, t, content, item, pc)
    ensures WellFormed(Rewrite(s, t, content, item, pc)) && Alone(c, Rewrite(s, t, content, item, pc))
  {
    var i, s' := s.calls[t].pc.item, Rewrite(s, t, content, item, pc);
    assert Uses(s, t, i) && Live(s, i);
    forall x: nat, y: nat | Live(s', x) && Live(s', y) && x != y && s'.items[x].inode == s'.items[y].inode
      ensures Whole(c, s', x)
    {
      RewriteLive(s, t, content, item, pc, x);
      RewriteLive(s, t, content, item, pc, y);
      assert Whole(c, s, x);
    }
  }

  lemma RewriteItem(c: Config, s: State, t: nat, content: seq<byte>, item: Item, pc: Pc, j: nat)
    requires WellFormed(s) && Names(s) && Alone(c, s) && t < |s.calls| && HasItem(s.calls[t].pc)
    requires GoodRewrite(c, s, t, content, item, pc) && Live(s, j) && ItemGood(c, s, j)
    requires WellFormed(Rewrite(s, t, content, item, pc))
    ensures ItemGood(c, Rewrite(s, t, content, item, pc), j)
  {
    var i := s.calls[t].pc.item;
    assert Uses(s, t, i) && Live(s, i);
  }

  lemma RewriteBytes(c: Config, s: State, t: nat, content: seq<byte>, item: Item, pc: Pc)
    requires WellFormed(s) && Names(s) && Bytes(c, s) && t < |s.calls| && HasItem(s.calls[t].pc)
    requires GoodRewrite(c, s, t, content, item, pc)
    ensures WellFormed(Rewrite(s, t, content, item, pc)) && Bytes(c, Rewrite(s, t, content, item, pc))
  {
    var s' := Rewrite(s, t, content, item, pc);
    RewriteAlone(c, s, t, content, item, pc);
    forall j: nat | Live(s', j) ensures ItemGood(c, s', j) {
      RewriteLive(s, t, content, item, pc, j);
      RewriteItem(c, s, t, content, item, pc, j);
    }
  }

  /** A writer changes a file that is not whole: nobody else's knowledge is about it. */
  lemma RewriteCalls(c: Config, s: State, t: nat, content: seq<byte>, item: Item, pc: Pc, u: nat)
    requires WellFormed(s) && Locks(s) && Names(s) && Alone(c, s) && t < |s.calls| && HasItem(s.calls[t].pc)
    requires GoodRewrite(c, s, t, content, item, pc)
    requires u < |s.calls| && u != t && CallGood(c, s, u)
    requires WellFormed(Rewrite(s, t, content, item, pc))
    ensures CallGood(c, Rewrite(s, t, content, item, pc), u)
  {
    var i, q := s.calls[t].pc.item, s.calls[u].pc;
    assert ItemLockSound(s, i);
    if HasItem(q) {
      assert Uses(s, t, i) && Uses(s, u, q.item);
      assert Live(s, i) && Live(s, q.item);
    }
  }

  lemma RewriteKeepsInv(c: Config, s: State, t: nat, content: seq<byte>, item: Item, pc: Pc)
    requires Inv(c, s) && t < |s.calls| && HasItem(s.calls[t].pc)
    requires GoodRewrite(c, s, t, content, item, pc)
    requires var s' := Rewrite(s, t, content, item, pc); WellFormed(s') && Locks(s') && CallGood(c, s', t)
    ensures Inv(c, Rewrite(s, t, content, item, pc))
  {
    var s' := Rewrite(s, t, content, item, pc);
    RewriteBytes(c, s, t, content, item, pc);
    forall u | 0 <= u < |s'.calls| ensures CallGood(c, s', u) {
      if u != t { RewriteCalls(c, s, t, content, item, pc, u); }
    }
  }

  lemma TruncatingKeepsInv(c: Config, s: State, t: nat)
    requires Inv(c, s) && t < |s.calls| && s.calls[t].pc.Truncating?
    ensures Inv(c, StepCall(c, s, t, true))
  {
    var s', i := StepCall(c, s, t, true), s.calls[t].pc.item;
    CallKeepsLocks(c, s, t, true);
    assert CallGood(c, s, t);
    assert Uses(s, t, i);
    assert Live(s, i) && ItemGood(c, s, i);
    assert s'.items == s.items[i := s.items[i]];
    assert s' == Rewrite(s, t, [], s.items[i], s'.calls[t].pc);
    RewriteKeepsInv(c, s, t, [], s.items[i], s'.calls[t].pc);
  }

  lemma WritingKeepsInv(c: Config, s: State, t: nat)
    requires Inv(c, s) && t < |s.calls| && s.calls[t].pc.Writing?
    ensures Inv(c, StepCall(c, s, t, true))
  {
    var s', i := StepCall(c, s, t, true), s.calls[t].pc.item;
    CallKeepsLocks(c, s, t, true);
    assert CallGood(c, s, t);
    var buf := s.calls[t].pc.buf;
    assert WriteAt([], 0, buf) == buf;
    assert s' == Rewrite(s, t, buf, s'.items[i], AwaitReread(i));
    RewriteKeepsInv(c, s, t, buf, s'.items[i], AwaitReread(i));
  }

  // ---------------------------------------------------------------- every step, every run

  lemma CallKeepsInv(c: Config, s: State, t: nat, good: bool)
    requires Inv(c, s) && t < |s.calls| && !Careless(c, s, Move(t, good))
    ensures Inv(c, StepCall(c, s, t, good))
  {
    var pc := s.calls[t].pc;
    if Finished(pc) {
    } else if good && pc.Opening? {
      OpeningKeepsInv(c, s, t);
    } else if good && pc.Inserting? {
      InsertingKeepsInv(c, s, t);
    } else if good && pc.Truncating? {
      TruncatingKeepsInv(c, s, t);
    } else if good && pc.Writing? {
      WritingKeepsInv(c, s, t);
    } else if pc.Lookup? || pc.AwaitLock? || LockHeld(pc) {
      EntryKeepsInv(c, s, t, good);
    } else {
      SectionKeepsInv(c, s, t, good);
    }
  }

  /** Losing an entry, or dropping a value, moves no call and no byte. */
  lemma LossKeepsInv(c: Config, s: State, a: Action)
    requires Inv(c, s) && (a.Evict? || a.Drop?)
    ensures Inv(c, Step(c, s, a))
  {
    var s' := Step(c, s, a);
    StepKeepsLocks(c, s, a);
    LossLive(c, s, a);
    BytesKept(c, s, s');
    LossNames(c, s, a);
    forall u | 0 <= u < |s'.calls| ensures CallGood(c, s', u) { LossCalls(c, s, a, u); }
  }

  lemma LossLive(c: Config, s: State, a: Action)
    requires WellFormed(s) && (a.Evict? || a.Drop?)
    ensures forall i: nat :: Live(Step(c, s, a), i) ==> Live(s, i)
  {
    var s' := Step(c, s, a);
    forall i: nat | Live(s', i) ensures Live(s, i) {
      if !Cached(s', i) {
        var u: nat :| Uses(s', u, i);
        assert Uses(s, u, i);
      }
    }
  }

  lemma LossNames(c: Config, s: State, a: Action)
    requires WellFormed(s) && Names(s) && (a.Evict? || a.Drop?)
    ensures Names(Step(c, s, a))
  {
  }

  lemma LossCalls(c: Config, s: State, a: Action, u: nat)
    requires WellFormed(s) && Locks(s) && (a.Evict? || a.Drop?) && u < |s.calls| && CallGood(c, s, u)
    ensures CallGood(c, Step(c, s, a), u)
  {
    if HasItem(s.calls[u].pc) { assert ItemLockSound(s, s.calls[u].pc.item); }
  }

  lemma BeginKeepsInv(c: Config, s: State, k: Key)
    requires Inv(c, s)
    ensures Inv(c, Step(c, s, Begin(k)))
  {
    var s' := Step(c, s, Begin(k));
    StepKeepsLocks(c, s, Begin(k));
    forall i: nat | Live(s', i) ensures Live(s, i) {
      if !Cached(s', i) {
        var u: nat :| Uses(s', u, i);
        assert u < |s.calls|;
        assert Uses(s, u, i);
      }
    }
    BytesKept(c, s, s');
    forall u | 0 <= u < |s'.calls| ensures CallGood(c, s', u) {
      if u < |s.calls| { assert CallGood(c, s, u); }
    }
  }

  /** A quiet start whose leftover files, if as long as their chunk, are that chunk. */
  ghost predicate Start(c: Config, s: State) {
    && Quiet(s)
    && (forall k :: k in s.paths ==> s.inodes[s.paths[k]].key == k)
    && FullIsExact(c, s)
  }

  lemma StepKeepsInv(c: Config, s: State, a: Action)
    requires Inv(c, s) && !Careless(c, s, a)
    ensures Inv(c, Step(c, s, a))
  {
    match a
    case Begin(k) => BeginKeepsInv(c, s, k);
    case Move(t, good) => if t < |s.calls| { CallKeepsInv(c, s, t, good); }
    case Evict(k) => LossKeepsInv(c, s, a);
    case Drop(i) => LossKeepsInv(c, s, a);
  }

  lemma CarefulBefore(c: Config, s: State, acts: seq<Action>)
    requires WellFormed(s) && acts != [] && Careful(c, s, acts)
    ensures Careful(c, s, acts[..|acts| - 1])
    ensures !Careless(c, Run(c, s, acts[..|acts| - 1]), acts[|acts| - 1])
  {
    EverMore(CarelessAfter(c, s), acts);
  }

  lemma {:induction false} RunKeepsInv(c: Config, s: State, acts: seq<Action>)
    requires Inv(c, s) && Careful(c, s, acts)
    ensures Inv(c, Run(c, s, acts))
    decreases |acts|
  {
    if acts != [] {
      CarefulBefore(c, s, acts);
      RunKeepsInv(c, s, acts[..|acts| - 1]);
      StepKeepsInv(c, Run(c, s, acts[..|acts| - 1]), acts[|acts| - 1]);
    }
  }

  lemma StartInv(c: Config, s: State)
    requires Start(c, s)
    ensures Inv(c, s)
  {
  }

  /** Every call that has returned did so with the chunk of its key. */
  ghost predicate Exact(c: Config, s: State) {
    forall t :: 0 <= t < |s.calls| && s.calls[t].pc.Returned? ==> s.calls[t].pc.result == c.chunk(s.calls[t].key)
  }

  lemma InvExact(c: Config, s: State)
    requires Inv(c, s)
    ensures Exact(c, s)
  {
    forall t | 0 <= t < |s.calls| && s.calls[t].pc.Returned? ensures s.calls[t].pc.result == c.chunk(s.calls[t].key) {
      assert CallGood(c, s, t);
    }
  }

  /** Whatever else the interleaving, the failures, the evictions and the drops do. */
  lemma ReturnsExact(c: Config, s: State, acts: seq<Action>)
    requires Start(c, s) && Careful(c, s, acts)
    ensures Exact(c, Run(c, s, acts))
  {
    StartInv(c, s);
    RunKeepsInv(c, s, acts);
    InvExact(c, Run(c, s, acts));
  }

  ghost predicate Filled(c: Config, s: State, i: nat)
    requires WellFormed(s) && i < |s.items|
  {
    && s.items[i].fills <= 1
    && (Live(s, i) ==>
         || (s.items[i].pos == 0 && s.items[i].fills == 0)
         || (s.items[i].pos == |c.chunk(s.items[i].key)| && Content(s, i) == c.chunk(s.items[i].key)))
  }

  ghost predicate WritesFromZero(c: Config, s: State, i: nat)
    requires WellFormed(s) && i < |s.items|
  {
    forall t :: 0 <= t < |s.calls| && s.calls[t].pc.Writing? && s.calls[t].pc.item == i ==>
      s.items[i].pos == 0 && Content(s, i) == [] && s.calls[t].pc.buf == c.chunk(s.items[i].key)
  }

  lemma InvFilled(c: Config, s: State, i: nat)
    requires Inv(c, s) && i < |s.items|
    ensures Filled(c, s, i) && WritesFromZero(c, s, i)
  {
    if Live(s, i) { assert ItemGood(c, s, i); }
    forall t | 0 <= t < |s.calls| && s.calls[t].pc.Writing? && s.calls[t].pc.item == i
      ensures s.items[i].pos == 0 && Content(s, i) == [] && s.calls[t].pc.buf == c.chunk(s.items[i].key)
    {
      assert CallGood(c, s, t);
    }
  }

  /** No item is ever filled twice, and an item some call can still reach stands at position zero or
      at the end of its exact chunk; a writer about to write always stands at zero over an empty file,
      so the write that does not rewind leaves exactly what was fetched. */
  lemma FilledOnceFromZero(c: Config, s: State, acts: seq<Action>, i: nat)
    requires Start(c, s) && Careful(c, s, acts) && i < |Run(c, s, acts).items|
    ensures Filled(c, Run(c, s, acts), i) && WritesFromZero(c, Run(c, s, acts), i)
  {
    StartInv(c, s);
    RunKeepsInv(c, s, acts);
    InvFilled(c, Run(c, s, acts), i);
  }

  // ---------------------------------------------------------------- paths

  /** The step makes a file under `k`. */
  predicate Creates(s: State, a: Action, k: Key) {
    a.Move? && a.good && a.call < |s.calls| && s.calls[a.call] == Call(k, Opening) && k !in s.paths
  }

  /** The step takes the path of `k` away: a call for `k` fails in its fetch or its write, but not in its
      truncation, or an item of `k` is dropped. */
  predicate Removes(s: State, a: Action, k: Key)
    requires WellFormed(s)
  {
    match a
    case Move(t, good) =>
      !good && t < |s.calls| && s.calls[t].key == k && (s.calls[t].pc.Fetching? || s.calls[t].pc.Writing?)
    case Drop(i) => i < |s.items| && s.items[i].key == k && s.items[i].open && !StepDrop(s, i).items[i].open
    case _ => false
  }

  /** The path of `k` is made, or taken away, or as it was. */
  ghost predicate PathIs(s: State, s': State, k: Key, created: bool, removed: bool) {
    && (k in s'.paths <==> created || (k in s.paths && !removed))
    && (created ==> s'.paths[k] == |s.inodes| && s'.inodes == s.inodes + [Inode(k, [])])
    && (k in s'.paths && !created ==> s'.paths[k] == s.paths[k])
  }

  lemma OpeningPaths(s: State, t: nat, good: bool, k: Key)
    requires WellFormed(s) && t < |s.calls| && s.calls[t].pc.Opening?
    ensures PathIs(s, StepOpening(s, t, good), k, Creates(s, Move(t, good), k), false)
  {
  }

  lemma FailingPaths(c: Config, s: State, t: nat, good: bool, k: Key)
    requires WellFormed(s) && Names(s) && t < |s.calls|
    ensures s.calls[t].pc.Fetching? ==>
              PathIs(s, StepFetching(c, s, t, good), k, false, Removes(s, Move(t, good), k))
    ensures s.calls[t].pc.Writing? ==>
              PathIs(s, StepWriting(c, s, t, good), k, false, Removes(s, Move(t, good), k))
  {
  }

  lemma OtherPaths(c: Config, s: State, t: nat, good: bool)
    requires WellFormed(s) && t < |s.calls|
    requires !s.calls[t].pc.Opening? && !s.calls[t].pc.Fetching? && !s.calls[t].pc.Writing?
    ensures StepCall(c, s, t, good).paths == s.paths
  {
  }

  /** Whatever the step: a path is there afterwards exactly if it is made in it, and leads to an empty file
      then, or was there and is not taken away, and leads where it led then. */
  lemma PathsExactly(c: Config, s: State, a: Action, k: Key)
    requires WellFormed(s) && Names(s)
    ensures PathIs(s, Step(c, s, a), k, Creates(s, a, k), Removes(s, a, k))
  {
    if a.Move? && a.call < |s.calls| {
      var pc := s.calls[a.call].pc;
      if pc.Opening? {
        OpeningPaths(s, a.call, a.good, k);
      } else if pc.Fetching? || pc.Writing? {
        FailingPaths(c, s, a.call, a.good, k);
      } else {
        OtherPaths(c, s, a.call, a.good);
      }
    }
  }
}
