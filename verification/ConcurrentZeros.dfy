/** Chunks that are all zeros: no interleaving, careless or not, makes GetOrCreate return anything else
    for them, because zeros are what goes wrong. */
module ConcurrentZeros {
  import opened Common
  import opened ConcurrentCache
  import opened ConcurrentLocks
  import opened ConcurrentExact

  predicate AllZeros(bytes: seq<byte>) { forall n :: 0 <= n < |bytes| ==> bytes[n] == 0 }

  lemma SameZeros(a: seq<byte>, b: seq<byte>)
    requires AllZeros(a) && AllZeros(b) && |a| == |b|
    ensures a == b
  {
  }

  lemma WriteZeros(content: seq<byte>, pos: nat, buf: seq<byte>)
    requires AllZeros(content) && AllZeros(buf)
    ensures AllZeros(WriteAt(content, pos, buf))
  {
  }

  /** Items, entries, paths and calls agree on which key they are about. */
  ghost predicate Keyed(s: State)
    requires WellFormed(s)
  {
    && (forall i :: 0 <= i < |s.items| ==> s.inodes[s.items[i].inode].key == s.items[i].key)
    && (forall k :: k in s.entries ==> s.items[s.entries[k]].key == k)
    && (forall k :: k in s.paths ==> s.inodes[s.paths[k]].key == k)
    && (forall t :: 0 <= t < |s.calls| && HasItem(s.calls[t].pc) ==> s.items[s.calls[t].pc.item].key == s.calls[t].key)
  }

  predicate ZeroFile(chunk: seq<byte>, content: seq<byte>) {
    AllZeros(chunk) && |content| == |chunk| ==> AllZeros(content)
  }

  /** A file of a chunk of zeros that is as long as the chunk is the chunk. */
  ghost predicate ZeroFiles(c: Config, s: State) {
    forall n :: 0 <= n < |s.inodes| ==> ZeroFile(c.chunk(s.inodes[n].key), s.inodes[n].content)
  }

  /** What a call for a chunk of zeros has in hand is the chunk; once its file was truncated, or had the
      chunk's length, there are only zeros in it. */
  ghost predicate ZeroCall(c: Config, s: State, t: nat)
    requires WellFormed(s) && t < |s.calls|
  {
    var chunk := c.chunk(s.calls[t].key);
    AllZeros(chunk) ==>
      match s.calls[t].pc
      case Truncating(i, buf) => buf == chunk
      case Writing(i, buf) => buf == chunk && AllZeros(Content(s, i))
      case Reading(i, size) => size == |chunk| ==> AllZeros(Content(s, i))
      case Returned(result) => result == chunk
      case _ => true
  }

  ghost predicate ZeroCalls(c: Config, s: State)
    requires WellFormed(s)
  {
    forall t :: 0 <= t < |s.calls| ==> ZeroCall(c, s, t)
  }

  ghost predicate ZeroInv(c: Config, s: State) {
    WellFormed(s) && Keyed(s) && ZeroFiles(c, s) && ZeroCalls(c, s)
  }

  // ---------------------------------------------------------------- steps

  /** Files keep their keys, and where there are only zeros, there are only zeros afterwards; items keep
      their files. */
  ghost predicate Soft(c: Config, s: State, s': State) {
    && |s'.inodes| >= |s.inodes| && |s'.items| >= |s.items|
    && (forall n :: 0 <= n < |s.inodes| ==> s'.inodes[n].key == s.inodes[n].key)
    && (forall n :: 0 <= n < |s.inodes| && AllZeros(c.chunk(s.inodes[n].key)) && AllZeros(s.inodes[n].content) ==>
          AllZeros(s'.inodes[n].content))
    && (forall i :: 0 <= i < |s.items| ==> s'.items[i].inode == s.items[i].inode && s'.items[i].key == s.items[i].key)
  }

  /** The step keeps what is known of files, and what call `t` knows is so. */
  ghost predicate Mild(c: Config, s: State, s': State, t: nat)
    requires WellFormed(s') && t < |s.calls|
  {
    Soft(c, s, s') && OthersStay(s, s', t) && Keyed(s') && ZeroFiles(c, s') && ZeroCall(c, s', t)
  }

  /** The same for steps that touch no file: what matters is where call `t` ends up. */
  ghost predicate Tame(c: Config, s: State, s': State, t: nat)
    requires WellFormed(s') && t < |s.calls|
  {
    && OnlyMoves(s, s', t) && ZeroCall(c, s', t)
    && (HasItem(s'.calls[t].pc) ==> s'.items[s'.calls[t].pc.item].key == s'.calls[t].key)
  }

  lemma TameIsMild(c: Config, s: State, s': State, t: nat)
    requires WellFormed(s) && Keyed(s) && ZeroFiles(c, s) && WellFormed(s') && t < |s.calls| && Tame(c, s, s', t)
    ensures Mild(c, s, s', t)
  {
  }

  lemma LookupTame(c: Config, s: State, t: nat)
    requires WellFormed(s) && Keyed(s) && ZeroFiles(c, s) && t < |s.calls|
    ensures Tame(c, s, StepLookup(s, t), t) && Tame(c, s, StepLookupLocked(s, t), t)
  {
  }

  lemma LockTame(c: Config, s: State, t: nat)
    requires WellFormed(s) && Keyed(s) && ZeroFiles(c, s) && t < |s.calls| && s.calls[t].pc.AwaitLock?
    ensures Tame(c, s, StepAwaitLock(s, t), t)
  {
  }

  lemma OpeningMild(c: Config, s: State, t: nat, good: bool)
    requires WellFormed(s) && Keyed(s) && ZeroFiles(c, s) && t < |s.calls| && s.calls[t].pc.Opening?
    ensures Mild(c, s, StepOpening(s, t, good), t)
  {
  }

  lemma InsertingMild(c: Config, s: State, t: nat, good: bool)
    requires WellFormed(s) && Keyed(s) && ZeroFiles(c, s) && t < |s.calls| && s.calls[t].pc.Inserting?
    ensures Mild(c, s, StepInserting(s, t, good), t)
  {
  }

  lemma ReleasingMild(c: Config, s: State, t: nat)
    requires WellFormed(s) && Keyed(s) && ZeroFiles(c, s) && t < |s.calls| && s.calls[t].pc.Releasing?
    ensures Mild(c, s, StepReleasing(s, t), t)
  {
    TameIsMild(c, s, StepReleasing(s, t), t);
  }

  predicate RightKey(s: State, t: nat)
    requires WellFormed(s) && t < |s.calls|
  {
    HasItem(s.calls[t].pc) && s.items[s.calls[t].pc.item].key == s.calls[t].key
  }

  lemma WaitingTame(c: Config, s: State, t: nat, i: nat)
    requires WellFormed(s) && t < |s.calls| && RightKey(s, t)
    ensures s.calls[t].pc == AwaitRead(i) ==> Tame(c, s, StepAwaitRead(s, t, Checking(i)), t)
    ensures s.calls[t].pc == AwaitReread(i) ==> Tame(c, s, StepAwaitRead(s, t, Measuring(i)), t)
  {
  }

  lemma QueueingTame(c: Config, s: State, t: nat)
    requires WellFormed(s) && t < |s.calls| && RightKey(s, t) && s.calls[t].pc.AwaitWrite?
    ensures Tame(c, s, StepAwaitWrite(s, t), t)
  {
  }

  lemma CheckingTame(c: Config, s: State, t: nat, good: bool)
    requires WellFormed(s) && t < |s.calls| && RightKey(s, t) && s.calls[t].pc.Checking?
    ensures Tame(c, s, StepChecking(c, s, t, good), t)
  {
  }

  lemma RecheckingTame(c: Config, s: State, t: nat, good: bool)
    requires WellFormed(s) && t < |s.calls| && RightKey(s, t) && s.calls[t].pc.Rechecking?
    ensures Tame(c, s, StepRechecking(c, s, t, good), t)
  {
  }

  lemma FetchingTame(c: Config, s: State, t: nat, good: bool)
    requires WellFormed(s) && t < |s.calls| && RightKey(s, t) && s.calls[t].pc.Fetching?
    ensures Tame(c, s, StepFetching(c, s, t, good), t)
  {
  }

  lemma MeasuringTame(c: Config, s: State, t: nat, good: bool)
    requires WellFormed(s) && t < |s.calls| && RightKey(s, t) && s.calls[t].pc.Measuring?
    requires ZeroFile(c.chunk(s.calls[t].key), Content(s, s.calls[t].pc.item))
    ensures Tame(c, s, StepMeasuring(c, s, t, good), t)
  {
    if c.chunk(s.calls[t].key) == [] { SameZeros(c.chunk(s.calls[t].key), []); }
  }

  lemma ReadingTame(c: Config, s: State, t: nat, good: bool)
    requires WellFormed(s) && t < |s.calls| && RightKey(s, t) && s.calls[t].pc.Reading? && ZeroCall(c, s, t)
    ensures Tame(c, s, StepReading(c, s, t, good), t)
  {
    var i, size, chunk := s.calls[t].pc.item, s.calls[t].pc.size, c.chunk(s.calls[t].key);
    if AllZeros(chunk) && size == |chunk| && size <= |Content(s, i)| { SameZeros(chunk, Content(s, i)[..size]); }
    if chunk == [] { SameZeros(chunk, []); }
  }

  /** The file of one item is changed so that only zeros, or nothing known of it, are in it. */
  lemma ContentMild(c: Config, s: State, s': State, t: nat)
    requires WellFormed(s) && Keyed(s) && ZeroFiles(c, s) && WellFormed(s')
    requires t < |s.calls| && HasItem(s.calls[t].pc) && OthersStay(s, s', t)
    requires HasItem(s'.calls[t].pc) ==> s'.calls[t].pc.item == s.calls[t].pc.item
    requires var n := s.items[s.calls[t].pc.item].inode;
             && |s'.inodes| == |s.inodes|
             && s'.inodes == s.inodes[n := s.inodes[n].(content := s'.inodes[n].content)]
             && (AllZeros(c.chunk(s.calls[t].key)) ==> AllZeros(s'.inodes[n].content))
    requires |s'.items| == |s.items| && s'.entries == s.entries && s'.paths == s.paths
    requires forall i ::
               0 <= i < |s.items| ==> s'.items[i].inode == s.items[i].inode && s'.items[i].key == s.items[i].key
    requires ZeroCall(c, s', t)
    ensures Mild(c, s, s', t)
  {
  }

  lemma TruncatingMild(c: Config, s: State, t: nat, good: bool)
    requires WellFormed(s) && Keyed(s) && ZeroFiles(c, s)
    requires t < |s.calls| && s.calls[t].pc.Truncating? && ZeroCall(c, s, t)
    ensures Mild(c, s, StepTruncating(s, t, good), t)
  {
    var s' := StepTruncating(s, t, good);
    if good { ContentMild(c, s, s', t); } else { TameIsMild(c, s, s', t); }
  }

  lemma WritingMild(c: Config, s: State, t: nat, good: bool)
    requires WellFormed(s) && Keyed(s) && ZeroFiles(c, s)
    requires t < |s.calls| && s.calls[t].pc.Writing? && ZeroCall(c, s, t)
    ensures Mild(c, s, StepWriting(c, s, t, good), t)
  {
    var i, buf := s.calls[t].pc.item, s.calls[t].pc.buf;
    if good {
      if AllZeros(c.chunk(s.calls[t].key)) { WriteZeros(Content(s, i), s.items[i].pos, buf); }
      ContentMild(c, s, StepWriting(c, s, t, good), t);
    } else {
      TameIsMild(c, s, StepWriting(c, s, t, good), t);
    }
  }

  /** The steps that make files or change them, or insert items. */
  predicate MovesFiles(pc: Pc) { pc.Opening? || pc.Inserting? || pc.Releasing? || pc.Truncating? || pc.Writing? }

  lemma FileStepMild(c: Config, s: State, t: nat, good: bool)
    requires ZeroInv(c, s) && t < |s.calls| && MovesFiles(s.calls[t].pc)
    ensures Mild(c, s, StepCall(c, s, t, good), t)
  {
    assert ZeroCall(c, s, t);
    match s.calls[t].pc
    case Opening => OpeningMild(c, s, t, good);
    case Inserting(_) => InsertingMild(c, s, t, good);
    case Releasing(_) => ReleasingMild(c, s, t);
    case Truncating(_, _) => TruncatingMild(c, s, t, good);
    case Writing(_, _) => WritingMild(c, s, t, good);
  }

  lemma OtherStepTame(c: Config, s: State, t: nat, good: bool)
    requires ZeroInv(c, s) && t < |s.calls| && !MovesFiles(s.calls[t].pc) && !Finished(s.calls[t].pc)
    ensures Tame(c, s, StepCall(c, s, t, good), t)
  {
    assert ZeroCall(c, s, t);
    match s.calls[t].pc
    case Lookup => LookupTame(c, s, t);
    case AwaitLock => LockTame(c, s, t);
    case LookupLocked => LookupTame(c, s, t);
    case AwaitRead(i) => WaitingTame(c, s, t, i);
    case AwaitReread(i) => WaitingTame(c, s, t, i);
    case AwaitWrite(_) => QueueingTame(c, s, t);
    case Checking(_) => CheckingTame(c, s, t, good);
    case Rechecking(_) => RecheckingTame(c, s, t, good);
    case Fetching(_) => FetchingTame(c, s, t, good);
    case Measuring(_) => MeasuringTame(c, s, t, good);
    case Reading(_, _) => ReadingTame(c, s, t, good);
  }

  lemma CallMild(c: Config, s: State, t: nat, good: bool)
    requires ZeroInv(c, s) && t < |s.calls| && !Finished(s.calls[t].pc)
    ensures Mild(c, s, StepCall(c, s, t, good), t)
  {
    if MovesFiles(s.calls[t].pc) {
      FileStepMild(c, s, t, good);
    } else {
      OtherStepTame(c, s, t, good);
      TameIsMild(c, s, StepCall(c, s, t, good), t);
    }
  }

  /** What the others know of their files stays so. */
  lemma MildKeeps(c: Config, s: State, s': State, t: nat)
    requires ZeroInv(c, s) && WellFormed(s') && t < |s.calls| && Mild(c, s, s', t)
    ensures ZeroInv(c, s')
  {
    forall u | 0 <= u < |s'.calls| ensures ZeroCall(c, s', u) {
      if u != t { assert ZeroCall(c, s, u); }
    }
  }

  lemma StepKeepsZeros(c: Config, s: State, a: Action)
    requires ZeroInv(c, s)
    ensures ZeroInv(c, Step(c, s, a))
  {
    if a.Move? {
      if a.call < |s.calls| && !Finished(s.calls[a.call].pc) {
        CallMild(c, s, a.call, a.good);
        MildKeeps(c, s, Step(c, s, a), a.call);
      }
    } else {
      OthersKeepZeros(c, s, a);
    }
  }

  lemma OthersKeepZeros(c: Config, s: State, a: Action)
    requires ZeroInv(c, s) && !a.Move?
    ensures ZeroInv(c, Step(c, s, a))
  {
    var s' := Step(c, s, a);
    forall u | 0 <= u < |s'.calls| ensures ZeroCall(c, s', u) {
      if u < |s.calls| { assert ZeroCall(c, s, u); }
    }
  }

  lemma {:induction false} RunKeepsZeros(c: Config, s: State, acts: seq<Action>)
    requires ZeroInv(c, s)
    ensures ZeroInv(c, Run(c, s, acts))
    decreases |acts|
  {
    if acts != [] {
      RunKeepsZeros(c, s, acts[..|acts| - 1]);
      StepKeepsZeros(c, Run(c, s, acts[..|acts| - 1]), acts[|acts| - 1]);
    }
  }

  /** Every call of key `k` that has returned did so with the chunk. */
  ghost predicate ExactFor(c: Config, s: State, k: Key) {
    forall t :: 0 <= t < |s.calls| && s.calls[t].key == k && s.calls[t].pc.Returned? ==>
      s.calls[t].pc.result == c.chunk(k)
  }

  lemma ZerosAreExact(c: Config, s: State, k: Key)
    requires ZeroInv(c, s) && AllZeros(c.chunk(k))
    ensures ExactFor(c, s, k)
  {
    forall t | 0 <= t < |s.calls| && s.calls[t].key == k && s.calls[t].pc.Returned?
      ensures s.calls[t].pc.result == c.chunk(k)
    {
      assert ZeroCall(c, s, t);
    }
  }

  lemma StartZeros(c: Config, s: State)
    requires Start(c, s)
    ensures ZeroInv(c, s)
  {
  }

  /** In every run, careless or not, calls for a chunk of zeros return the chunk. */
  lemma ZeroChunksExact(c: Config, s: State, acts: seq<Action>, k: Key)
    requires Start(c, s) && AllZeros(c.chunk(k))
    ensures ExactFor(c, Run(c, s, acts), k)
  {
    StartZeros(c, s);
    RunKeepsZeros(c, s, acts);
    ZerosAreExact(c, Run(c, s, acts), k);
  }
}
