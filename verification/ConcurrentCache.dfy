/** pkg/cache/filecache.go and pkg/cache/item.go under concurrency: any number of GetOrCreate calls,
    interleaved at every lock operation, stat, disk access and fetch, with eviction at any moment.

    Each `Pc` is a program point of GetOrCreate; the lines are those of filecache.go unless noted.
    Files are inodes reached through handles that keep their own position, as the operating system
    keeps them, because an evicted item and its successor can hold the same file open. */
module ConcurrentCache {
  import opened Common
  import opened Reachability

  type Key = string

  datatype Inode = Inode(key: Key, content: seq<byte>)

  /** A cached item: an open handle, its read-write lock, and how often it has been filled. */
  datatype Item = Item(
    key: Key, inode: nat, pos: nat,
    open: bool,      // false once dropped
    offered: bool,   // handed to the foreign cache, which may drop it from then on
    writer: Option<nat>, readers: set<nat>,
    fills: nat)

  datatype Pc =
    | Lookup                                 // 53
    | AwaitLock                              // 54
    | LookupLocked                           // 55
    | Opening                                // 59, item.go:118-135
    | Inserting(item: nat)                   // 64
    | Releasing(item: nat)                   // 71-73
    | AwaitRead(item: nat)                   // 79
    | Checking(item: nat)                    // 80-88
    | AwaitWrite(item: nat)                  // 90
    | Rechecking(item: nat)                  // 93-97, 107-109
    | Fetching(item: nat)                    // item.go:57
    | Truncating(item: nat, buf: seq<byte>)  // item.go:102
    | Writing(item: nat, buf: seq<byte>)     // item.go:107
    | AwaitReread(item: nat)                 // 110
    | Measuring(item: nat)                   // 113, item.go:70
    | Reading(item: nat, size: nat)          // item.go:79-96, 114-118
    | Returned(result: seq<byte>)            // 120
    | Failed
    | Crashed(item: nat)                     // item.go:48, on the nil file of a dropped item

  datatype Call = Call(key: Key, pc: Pc)

  datatype State = State(
    inodes: seq<Inode>, paths: map<Key, nat>,   // the disk
    items: seq<Item>, entries: map<Key, nat>,   // every item made, and the foreign cache
    lock: Option<nat>,                          // the cache's own lock
    calls: seq<Call>)

  /** What the environment chooses: who moves, whether the operation it performs succeeds, and when
      the foreign cache loses an entry and later drops its value. */
  datatype Action = Begin(key: Key) | Move(call: nat, good: bool) | Evict(key: Key) | Drop(item: nat)

  /** The content every key stands for. */
  datatype Config = Config(chunk: Key -> seq<byte>)

  /** The call is at work on an item. */
  predicate HasItem(pc: Pc) {
    !(pc.Lookup? || pc.AwaitLock? || pc.LookupLocked? || pc.Opening? || pc.Returned? || pc.Failed? || pc.Crashed?)
  }

  /** The unlocking that follows a crash is not deferred, so a crashed call keeps the read lock. */
  predicate ReadHeld(pc: Pc, i: nat) {
    (pc.Checking? || pc.Measuring? || pc.Reading? || pc.Crashed?) && pc.item == i
  }

  predicate WriteHeld(pc: Pc, i: nat) {
    (pc.Rechecking? || pc.Fetching? || pc.Truncating? || pc.Writing?) && pc.item == i
  }

  predicate LockHeld(pc: Pc) { pc.LookupLocked? || pc.Opening? || pc.Inserting? || pc.Releasing? }

  predicate Finished(pc: Pc) { pc.Returned? || pc.Failed? || pc.Crashed? }

  predicate WellFormed(s: State) {
    && (forall i :: 0 <= i < |s.items| ==> s.items[i].inode < |s.inodes|)
    && (forall k :: k in s.paths ==> s.paths[k] < |s.inodes|)
    && (forall k :: k in s.entries ==> s.entries[k] < |s.items|)
    && (forall t :: 0 <= t < |s.calls| && (HasItem(s.calls[t].pc) || s.calls[t].pc.Crashed?) ==>
          s.calls[t].pc.item < |s.items|)
  }

  // ---------------------------------------------------------------- state updates

  function Goto(s: State, t: nat, pc: Pc): State
    requires t < |s.calls|
  {
    s.(calls := s.calls[t := s.calls[t].(pc := pc)])
  }

  function WithItem(s: State, i: nat, item: Item): State
    requires i < |s.items|
  {
    s.(items := s.items[i := item])
  }

  function TakeRead(s: State, i: nat, t: nat): State
    requires i < |s.items|
  {
    WithItem(s, i, s.items[i].(readers := s.items[i].readers + {t}))
  }

  function LetRead(s: State, i: nat, t: nat): State
    requires i < |s.items|
  {
    WithItem(s, i, s.items[i].(readers := s.items[i].readers - {t}))
  }

  function TakeWrite(s: State, i: nat, t: nat): State
    requires i < |s.items|
  {
    WithItem(s, i, s.items[i].(writer := Some(t)))
  }

  function LetWrite(s: State, i: nat): State
    requires i < |s.items|
  {
    WithItem(s, i, s.items[i].(writer := None))
  }

  function WithContent(s: State, n: nat, content: seq<byte>): State
    requires n < |s.inodes|
  {
    s.(inodes := s.inodes[n := s.inodes[n].(content := content)])
  }

  function Unlink(s: State, k: Key): State { s.(paths := s.paths - {k}) }

  function Content(s: State, i: nat): seq<byte>
    requires WellFormed(s) && i < |s.items|
  {
    s.inodes[s.items[i].inode].content
  }

  // ---------------------------------------------------------------- the steps of one call

  function StepLookup(s: State, t: nat): (s': State)
    requires WellFormed(s) && t < |s.calls|
    ensures WellFormed(s')
  {
    var k := s.calls[t].key;
    Goto(s, t, if k in s.entries then AwaitRead(s.entries[k]) else AwaitLock)
  }

  function StepAwaitLock(s: State, t: nat): (s': State)
    requires WellFormed(s) && t < |s.calls|
    ensures WellFormed(s')
  {
    if s.lock.None? then Goto(s.(lock := Some(t)), t, LookupLocked) else s
  }

  function StepLookupLocked(s: State, t: nat): (s': State)
    requires WellFormed(s) && t < |s.calls|
    ensures WellFormed(s')
  {
    var k := s.calls[t].key;
    if k in s.entries then Goto(s.(lock := None), t, AwaitRead(s.entries[k])) else Goto(s, t, Opening)
  }

  /** Opens or creates, without truncating. */
  function StepOpening(s: State, t: nat, good: bool): (s': State)
    requires WellFormed(s) && t < |s.calls|
    ensures WellFormed(s')
  {
    var k := s.calls[t].key;
    if !good then Goto(s.(lock := None), t, Failed)
    else if k !in s.paths then
      var s1 := s.(inodes := s.inodes + [Inode(k, [])], paths := s.paths[k := |s.inodes|]);
      Goto(s1.(items := s.items + [Item(k, |s.inodes|, 0, true, false, None, {}, 0)]), t, Inserting(|s.items|))
    else
      Goto(s.(items := s.items + [Item(k, s.paths[k], 0, true, false, None, {}, 0)]), t, Inserting(|s.items|))
  }

  function StepInserting(s: State, t: nat, good: bool): (s': State)
    requires WellFormed(s) && t < |s.calls| && s.calls[t].pc.Inserting?
    ensures WellFormed(s')
  {
    var i := s.calls[t].pc.item;
    if good then
      Goto(WithItem(s, i, s.items[i].(offered := true)).(entries := s.entries[s.calls[t].key := i]), t, Releasing(i))
    else Goto(s.(lock := None), t, Failed)
  }

  function StepReleasing(s: State, t: nat): (s': State)
    requires WellFormed(s) && t < |s.calls| && s.calls[t].pc.Releasing?
    ensures WellFormed(s')
  {
    Goto(s.(lock := None), t, AwaitRead(s.calls[t].pc.item))
  }

  function StepAwaitRead(s: State, t: nat, next: Pc): (s': State)
    requires WellFormed(s) && t < |s.calls| && HasItem(s.calls[t].pc)
    requires HasItem(next) && next.item == s.calls[t].pc.item
    ensures WellFormed(s')
  {
    var i := s.calls[t].pc.item;
    if s.items[i].writer.None? then Goto(TakeRead(s, i, t), t, next) else s
  }

  /** A stat that fails, as it does on a dropped item, ends the call. */
  function StepChecking(c: Config, s: State, t: nat, good: bool): (s': State)
    requires WellFormed(s) && t < |s.calls| && s.calls[t].pc.Checking?
    ensures WellFormed(s')
  {
    var i := s.calls[t].pc.item;
    if !s.items[i].open || !good then Goto(LetRead(s, i, t), t, Failed)
    else if |Content(s, i)| != |c.chunk(s.calls[t].key)| then Goto(LetRead(s, i, t), t, AwaitWrite(i))
    else Goto(s, t, Measuring(i))
  }

  function StepAwaitWrite(s: State, t: nat): (s': State)
    requires WellFormed(s) && t < |s.calls| && s.calls[t].pc.AwaitWrite?
    ensures WellFormed(s')
  {
    var i := s.calls[t].pc.item;
    if s.items[i].writer.None? && s.items[i].readers == {} then Goto(TakeWrite(s, i, t), t, Rechecking(i)) else s
  }

  function StepRechecking(c: Config, s: State, t: nat, good: bool): (s': State)
    requires WellFormed(s) && t < |s.calls| && s.calls[t].pc.Rechecking?
    ensures WellFormed(s')
  {
    var i := s.calls[t].pc.item;
    if !s.items[i].open || !good then Goto(LetWrite(s, i), t, Failed)
    else if |Content(s, i)| != |c.chunk(s.calls[t].key)| then Goto(s, t, Fetching(i))
    else Goto(LetWrite(s, i), t, AwaitReread(i))
  }

  /** A fetch that succeeds has brought the chunk; one that fails makes the call remove the path. */
  function StepFetching(c: Config, s: State, t: nat, good: bool): (s': State)
    requires WellFormed(s) && t < |s.calls| && s.calls[t].pc.Fetching?
    ensures WellFormed(s')
  {
    var i := s.calls[t].pc.item;
    if good then Goto(s, t, Truncating(i, c.chunk(s.calls[t].key)))
    else Goto(LetWrite(Unlink(s, s.items[i].key), i), t, Failed)
  }

  function StepTruncating(s: State, t: nat, good: bool): (s': State)
    requires WellFormed(s) && t < |s.calls| && s.calls[t].pc.Truncating?
    ensures WellFormed(s')
  {
    var i := s.calls[t].pc.item;
    if good then Goto(WithContent(s, s.items[i].inode, []), t, Writing(i, s.calls[t].pc.buf))
    else Goto(LetWrite(s, i), t, Failed)
  }

  /** Writes at the handle's position, which truncating did not move. */
  function StepWriting(c: Config, s: State, t: nat, good: bool): (s': State)
    requires WellFormed(s) && t < |s.calls| && s.calls[t].pc.Writing?
    ensures WellFormed(s')
  {
    var i, buf := s.calls[t].pc.item, s.calls[t].pc.buf;
    if good then
      var s1 := WithContent(s, s.items[i].inode, WriteAt(Content(s, i), s.items[i].pos, buf));
      var item := s.items[i].(pos := s.items[i].pos + |buf|, fills := s.items[i].fills + 1, writer := None);
      var s2 := WithItem(s1, i, item);
      Goto(s2, t, if |buf| == |c.chunk(s.calls[t].key)| then AwaitReread(i) else Failed)
    else Goto(LetWrite(Unlink(s, s.items[i].key), i), t, Failed)
  }

  /** Where a call ends with the bytes it read: none, if reading them failed. */
  function Ending(c: Config, k: Key, result: seq<byte>): Pc {
    if |result| == |c.chunk(k)| then Returned(result) else Failed
  }

  /** On a dropped item the error is logged with the name of a file that is no more. */
  function StepMeasuring(c: Config, s: State, t: nat, good: bool): (s': State)
    requires WellFormed(s) && t < |s.calls| && s.calls[t].pc.Measuring?
    ensures WellFormed(s')
  {
    var i := s.calls[t].pc.item;
    if !s.items[i].open then Goto(s, t, Crashed(i))
    else if !good then Goto(LetRead(s, i, t), t, Ending(c, s.calls[t].key, []))
    else Goto(s, t, Reading(i, |Content(s, i)|))
  }

  /** Reads as many bytes as were measured; a file that has shrunk since gives an error, and so nothing. */
  function StepReading(c: Config, s: State, t: nat, good: bool): (s': State)
    requires WellFormed(s) && t < |s.calls| && s.calls[t].pc.Reading?
    ensures WellFormed(s')
  {
    var i, size := s.calls[t].pc.item, s.calls[t].pc.size;
    var result := if good && size <= |Content(s, i)| then Content(s, i)[..size] else [];
    Goto(LetRead(s, i, t), t, Ending(c, s.calls[t].key, result))
  }

  function StepCall(c: Config, s: State, t: nat, good: bool): (s': State)
    requires WellFormed(s) && t < |s.calls|
    ensures WellFormed(s')
  {
    match s.calls[t].pc
    case Lookup => StepLookup(s, t)
    case AwaitLock => StepAwaitLock(s, t)
    case LookupLocked => StepLookupLocked(s, t)
    case Opening => StepOpening(s, t, good)
    case Inserting(_) => StepInserting(s, t, good)
    case Releasing(_) => StepReleasing(s, t)
    case AwaitRead(i) => StepAwaitRead(s, t, Checking(i))
    case Checking(_) => StepChecking(c, s, t, good)
    case AwaitWrite(_) => StepAwaitWrite(s, t)
    case Rechecking(_) => StepRechecking(c, s, t, good)
    case Fetching(_) => StepFetching(c, s, t, good)
    case Truncating(_, _) => StepTruncating(s, t, good)
    case Writing(_, _) => StepWriting(c, s, t, good)
    case AwaitReread(i) => StepAwaitRead(s, t, Measuring(i))
    case Measuring(_) => StepMeasuring(c, s, t, good)
    case Reading(_, _) => StepReading(c, s, t, good)
    case Returned(_) => s
    case Failed => s
    case Crashed(_) => s
  }

  /** item.go:26-42: takes the item's lock, closes the file and removes its path. */
  function StepDrop(s: State, i: nat): (s': State)
    requires WellFormed(s)
    ensures WellFormed(s')
  {
    if i < |s.items| && s.items[i].open && s.items[i].offered && s.items[i].writer.None? && s.items[i].readers == {}
       && !(s.items[i].key in s.entries && s.entries[s.items[i].key] == i)
    then Unlink(WithItem(s, i, s.items[i].(open := false)), s.items[i].key)
    else s
  }

  /** One step of the whole system; an action that is not enabled changes nothing. */
  function Step(c: Config, s: State, a: Action): (s': State)
    requires WellFormed(s)
    ensures WellFormed(s')
  {
    match a
    case Begin(k) => s.(calls := s.calls + [Call(k, Lookup)])
    case Move(t, good) => if t < |s.calls| then StepCall(c, s, t, good) else s
    case Evict(k) => s.(entries := s.entries - {k})
    case Drop(i) => StepDrop(s, i)
  }

  function Run(c: Config, s: State, acts: seq<Action>): (s': State)
    requires WellFormed(s)
    ensures WellFormed(s')
    decreases |acts|
  {
    if acts == [] then s else Step(c, Run(c, s, acts[..|acts| - 1]), acts[|acts| - 1])
  }

  /** A run can be cut in two anywhere. */
  lemma {:induction false} RunOn(c: Config, s: State, acts: seq<Action>, more: seq<Action>)
    requires WellFormed(s)
    ensures Run(c, Run(c, s, acts), more) == Run(c, s, acts + more)
    decreases |more|
  {
    if more == [] {
      assert acts + more == acts;
    } else {
      var m := |more| - 1;
      RunOn(c, s, acts, more[..m]);
      assert (acts + more)[..|acts + more| - 1] == acts + more[..m];
    }
  }

  // ---------------------------------------------------------------- reopening a file in use

  /** Some call in progress is on an item that has this file open. */
  predicate InUse(s: State, n: nat)
    requires WellFormed(s)
  {
    exists u :: 0 <= u < |s.calls| && HasItem(s.calls[u].pc) && s.items[s.calls[u].pc.item].inode == n
  }

  /** The step opens once more a file that some call is using, on an item evicted meanwhile, and that
      is not yet as long as its chunk. */
  predicate Careless(c: Config, s: State, a: Action)
    requires WellFormed(s)
  {
    && a.Move? && a.good && a.call < |s.calls| && s.calls[a.call].pc.Opening?
    && var k := s.calls[a.call].key;
       k in s.paths && |s.inodes[s.paths[k]].content| != |c.chunk(k)| && InUse(s, s.paths[k])
  }

  ghost function CarelessAfter(c: Config, s: State): (seq<Action>, Action) -> bool
    requires WellFormed(s)
  {
    (before, a) => Careless(c, Run(c, s, before), a)
  }

  /** No step of the run does that. */
  ghost predicate Careful(c: Config, s: State, acts: seq<Action>)
    requires WellFormed(s)
  {
    !Ever(CarelessAfter(c, s), acts)
  }
}
