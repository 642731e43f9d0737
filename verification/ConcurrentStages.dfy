/** Stages of a run, seen through the few calls and items that matter to it: whatever the rest of the
    system is, these calls can make these moves. */
module ConcurrentStages {
  import opened Common
  import opened Reachability
  import opened ConcurrentCache

  // ---------------------------------------------------------------- going on with care

  /** One step, done with care. */
  ghost predicate Next(c: Config, s: State, s': State) {
    exists a :: WellFormed(s) && !Careless(c, s, a) && s' == Step(c, s, a)
  }

  ghost function NextOf(c: Config): (State, State) -> bool { (s, s') => Next(c, s, s') }

  /** A run without a careless step leads from one state to the other. */
  ghost predicate Leads(c: Config, s: State, s': State) { Reaches(NextOf(c), s, s') }

  lemma Nowhere(c: Config, s: State)
    ensures Leads(c, s, s)
  {
    Stays(NextOf(c), s);
  }

  lemma Once(c: Config, s: State, a: Action)
    requires WellFormed(s) && !Careless(c, s, a)
    ensures Leads(c, s, Step(c, s, a))
  {
    assert Next(c, s, Step(c, s, a));
    Goes(NextOf(c), s, Step(c, s, a));
  }

  lemma OnAndOn(c: Config, s: State, mid: State, end: State)
    requires Leads(c, s, mid) && Leads(c, mid, end)
    ensures Leads(c, s, end)
  {
    GoesOn(NextOf(c), s, mid, end);
  }

  lemma RunMore(c: Config, s: State, before: seq<Action>, a: Action)
    requires WellFormed(s) && Careful(c, s, before) && !Careless(c, Run(c, s, before), a)
    ensures Careful(c, s, before + [a]) && Run(c, s, before + [a]) == Step(c, Run(c, s, before), a)
  {
    var acts := before + [a];
    assert acts[..|acts| - 1] == before;
    EverMore(CarelessAfter(c, s), acts);
  }

  lemma {:induction false} PathIsRun(c: Config, ss: seq<State>) returns (acts: seq<Action>)
    requires Path(NextOf(c), ss) && WellFormed(ss[0])
    ensures Careful(c, ss[0], acts) && Run(c, ss[0], acts) == ss[|ss| - 1]
    decreases |ss|
  {
    if |ss| == 1 {
      acts := [];
    } else {
      var m := |ss| - 1;
      assert Path(NextOf(c), ss[..m]);
      var before := PathIsRun(c, ss[..m]);
      var a := NextAction(c, ss[m - 1], ss[m]);
      RunMore(c, ss[0], before, a);
      acts := before + [a];
    }
  }

  lemma NextAction(c: Config, s: State, s': State) returns (a: Action)
    requires Next(c, s, s')
    ensures WellFormed(s) && !Careless(c, s, a) && s' == Step(c, s, a)
  {
    a :| !Careless(c, s, a) && s' == Step(c, s, a);
  }

  lemma LeadsByRun(c: Config, s: State, s': State) returns (acts: seq<Action>)
    requires WellFormed(s) && Leads(c, s, s')
    ensures Careful(c, s, acts) && Run(c, s, acts) == s'
  {
    var ss :| Path(NextOf(c), ss) && ss[0] == s && ss[|ss| - 1] == s';
    acts := PathIsRun(c, ss);
  }

  // ---------------------------------------------------------------- views

  /** What matters of a state: the content of one file, the item cached for its key, the cache's lock,
      how many calls and items there are, and some of each. */
  datatype View = View(content: seq<byte>, cached: Option<nat>, lock: Option<nat>, calls: nat, items: nat,
                       at: map<nat, Pc>, on: map<nat, Item>)

  ghost predicate Sees(s: State, k: Key, n: nat, v: View) {
    && WellFormed(s) && k in s.paths && s.paths[k] == n && s.inodes[n] == Inode(k, v.content)
    && v.cached == (if k in s.entries then Some(s.entries[k]) else None)
    && v.lock == s.lock && v.calls == |s.calls| && v.items == |s.items|
    && (forall t :: t in v.at ==> t < |s.calls| && s.calls[t] == Call(k, v.at[t]))
    && (forall i :: i in v.on ==> i < |s.items| && s.items[i] == v.on[i] && v.on[i].inode == n && v.on[i].key == k)
  }

  /** Call `t` moves to `pc`. */
  function To(v: View, t: nat, pc: Pc): View { v.(at := v.at[t := pc]) }

  function With(v: View, i: nat, item: Item): View { v.(on := v.on[i := item]) }

  function Fresh(k: Key, n: nat, offered: bool): Item { Item(k, n, 0, true, offered, None, {}, 0) }

  // ---------------------------------------------------------------- what views tell

  datatype Glance = BeginIt | EvictIt | MoveIt(call: nat)

  function Taken(item: Item, t: nat): Item { item.(readers := item.readers + {t}) }

  function Let(item: Item, t: nat): Item { item.(readers := item.readers - {t}) }

  /** The item after a fill that started at its handle's position. */
  function Filled(item: Item, m: nat): Item { item.(pos := item.pos + m, fills := item.fills + 1, writer := None) }

  /** The part of a move that shows in a view, where the view tells enough for that. */
  function Moved(c: Config, k: Key, n: nat, v: View, t: nat): Option<View> {
    if t !in v.at then None
    else
      match v.at[t]
      case Lookup => Some(To(v, t, if v.cached.Some? then AwaitRead(v.cached.value) else AwaitLock))
      case AwaitLock => if v.lock.None? then Some(To(v, t, LookupLocked).(lock := Some(t))) else None
      case LookupLocked => if v.cached.None? then Some(To(v, t, Opening)) else None
      case Opening =>
        if |v.content| != |c.chunk(k)| then None
        else Some(With(To(v, t, Inserting(v.items)), v.items, Fresh(k, n, false)).(items := v.items + 1))
      case Releasing(i) => Some(To(v, t, AwaitRead(i)).(lock := None))
      case Fetching(i) => Some(To(v, t, Truncating(i, c.chunk(k))))
      case Inserting(i) => if i in v.on then MovedOn(c, k, v, t, i, v.on[i]) else None
      case AwaitRead(i) => if i in v.on then MovedOn(c, k, v, t, i, v.on[i]) else None
      case Checking(i) => if i in v.on then MovedOn(c, k, v, t, i, v.on[i]) else None
      case AwaitWrite(i) => if i in v.on then MovedOn(c, k, v, t, i, v.on[i]) else None
      case Rechecking(i) => if i in v.on then MovedOn(c, k, v, t, i, v.on[i]) else None
      case Truncating(i, _) => if i in v.on then MovedOn(c, k, v, t, i, v.on[i]) else None
      case Writing(i, _) => if i in v.on then MovedOn(c, k, v, t, i, v.on[i]) else None
      case AwaitReread(i) => if i in v.on then MovedOn(c, k, v, t, i, v.on[i]) else None
      case Measuring(i) => if i in v.on then MovedOn(c, k, v, t, i, v.on[i]) else None
      case Reading(i, _) => if i in v.on then MovedOn(c, k, v, t, i, v.on[i]) else None
      case _ => None
  }

  function MovedOn(c: Config, k: Key, v: View, t: nat, i: nat, item: Item): Option<View>
    requires t in v.at
  {
    var short := |v.content| != |c.chunk(k)|;
    match v.at[t]
    case Inserting(_) => Some(With(To(v, t, Releasing(i)), i, item.(offered := true)).(cached := Some(i)))
    case AwaitRead(_) => if item.writer.None? then Some(With(To(v, t, Checking(i)), i, Taken(item, t))) else None
    case Checking(_) => if item.open && short then Some(With(To(v, t, AwaitWrite(i)), i, Let(item, t))) else None
    case AwaitWrite(_) =>
      if item.writer.None? && item.readers == {} then Some(With(To(v, t, Rechecking(i)), i, item.(writer := Some(t))))
      else None
    case Rechecking(_) => if item.open && short then Some(To(v, t, Fetching(i))) else None
    case Truncating(_, buf) => Some(To(v, t, Writing(i, buf)).(content := []))
    case Writing(_, buf) =>
      if v.content != [] || buf == [] || buf != c.chunk(k) then None
      else Some(With(To(v, t, AwaitReread(i)), i, Filled(item, |buf|)).(content := Zeros(item.pos) + buf))
    case AwaitReread(_) => if item.writer.None? then Some(With(To(v, t, Measuring(i)), i, Taken(item, t))) else None
    case Measuring(_) => if item.open then Some(To(v, t, Reading(i, |v.content|))) else None
    case Reading(_, size) =>
      if size != |c.chunk(k)| || size > |v.content| then None
      else Some(With(To(v, t, Returned(v.content[..size])), i, Let(item, t)))
    case _ => None
  }

  function Seen(c: Config, k: Key, n: nat, v: View, g: Glance): Option<View> {
    match g
    case BeginIt => Some(To(v, v.calls, Lookup).(calls := v.calls + 1))
    case EvictIt => Some(v.(cached := None))
    case MoveIt(t) => Moved(c, k, n, v, t)
  }

  function ActionOf(k: Key, g: Glance): Action {
    match g
    case BeginIt => Begin(k)
    case EvictIt => Evict(k)
    case MoveIt(t) => Move(t, true)
  }

  // ---------------------------------------------------------------- views tell the truth

  lemma EntryTrue(c: Config, s: State, k: Key, n: nat, v: View, t: nat)
    requires Sees(s, k, n, v) && Moved(c, k, n, v, t).Some?
    requires v.at[t].Lookup? || v.at[t].AwaitLock? || v.at[t].LookupLocked? || v.at[t].Releasing?
    ensures !Careless(c, s, Move(t, true)) && Sees(Step(c, s, Move(t, true)), k, n, Moved(c, k, n, v, t).value)
  {
    var v' := Moved(c, k, n, v, t).value;
    assert Step(c, s, Move(t, true)) == Goto(s.(lock := v'.lock), t, v'.at[t]);
  }

  /** The file is whole, so opening it again is no carelessness. */
  lemma OpeningTrue(c: Config, s: State, k: Key, n: nat, v: View, t: nat)
    requires Sees(s, k, n, v) && Moved(c, k, n, v, t).Some? && v.at[t].Opening?
    ensures !Careless(c, s, Move(t, true)) && Sees(Step(c, s, Move(t, true)), k, n, Moved(c, k, n, v, t).value)
  {
    assert Step(c, s, Move(t, true)) == Goto(s.(items := s.items + [Fresh(k, n, false)]), t, Inserting(v.items));
  }

  lemma InsertingTrue(c: Config, s: State, k: Key, n: nat, v: View, t: nat)
    requires Sees(s, k, n, v) && Moved(c, k, n, v, t).Some? && v.at[t].Inserting?
    ensures !Careless(c, s, Move(t, true)) && Sees(Step(c, s, Move(t, true)), k, n, Moved(c, k, n, v, t).value)
  {
    var i := v.at[t].item;
    assert Step(c, s, Move(t, true))
        == Goto(WithItem(s, i, v.on[i].(offered := true)).(entries := s.entries[k := i]), t, Releasing(i));
  }

  /** Steps that change no more than the item and where the call is. */
  lemma ItemTrue(s: State, k: Key, n: nat, v: View, t: nat, i: nat, item: Item, pc: Pc)
    requires Sees(s, k, n, v) && t in v.at && i in v.on && item.inode == n && item.key == k
    requires HasItem(pc) || pc.Crashed? ==> pc.item == i
    ensures Sees(Goto(WithItem(s, i, item), t, pc), k, n, With(To(v, t, pc), i, item))
  {
  }

  lemma TakingTrue(c: Config, s: State, k: Key, n: nat, v: View, t: nat)
    requires Sees(s, k, n, v) && Moved(c, k, n, v, t).Some?
    requires v.at[t].AwaitRead? || v.at[t].AwaitReread? || v.at[t].AwaitWrite?
    ensures !Careless(c, s, Move(t, true)) && Sees(Step(c, s, Move(t, true)), k, n, Moved(c, k, n, v, t).value)
  {
    var i, v' := v.at[t].item, Moved(c, k, n, v, t).value;
    ItemTrue(s, k, n, v, t, i, v'.on[i], v'.at[t]);
    assert Step(c, s, Move(t, true)) == Goto(WithItem(s, i, v'.on[i]), t, v'.at[t]);
  }

  lemma CheckingTrue(c: Config, s: State, k: Key, n: nat, v: View, t: nat)
    requires Sees(s, k, n, v) && Moved(c, k, n, v, t).Some? && v.at[t].Checking?
    ensures !Careless(c, s, Move(t, true)) && Sees(Step(c, s, Move(t, true)), k, n, Moved(c, k, n, v, t).value)
  {
    var i := v.at[t].item;
    ItemTrue(s, k, n, v, t, i, Let(v.on[i], t), AwaitWrite(i));
    assert Step(c, s, Move(t, true)) == Goto(WithItem(s, i, Let(v.on[i], t)), t, AwaitWrite(i));
  }

  lemma ReadingTrue(c: Config, s: State, k: Key, n: nat, v: View, t: nat)
    requires Sees(s, k, n, v) && Moved(c, k, n, v, t).Some? && v.at[t].Reading?
    ensures !Careless(c, s, Move(t, true)) && Sees(Step(c, s, Move(t, true)), k, n, Moved(c, k, n, v, t).value)
  {
    var i, pc := v.at[t].item, Returned(v.content[..v.at[t].size]);
    ItemTrue(s, k, n, v, t, i, Let(v.on[i], t), pc);
    assert Step(c, s, Move(t, true)) == Goto(WithItem(s, i, Let(v.on[i], t)), t, pc);
  }

  lemma ThinkingTrue(c: Config, s: State, k: Key, n: nat, v: View, t: nat)
    requires Sees(s, k, n, v) && Moved(c, k, n, v, t).Some?
    requires v.at[t].Rechecking? || v.at[t].Measuring? || v.at[t].Fetching?
    ensures !Careless(c, s, Move(t, true)) && Sees(Step(c, s, Move(t, true)), k, n, Moved(c, k, n, v, t).value)
  {
    assert Step(c, s, Move(t, true)) == Goto(s, t, Moved(c, k, n, v, t).value.at[t]);
  }

  lemma TruncatingTrue(c: Config, s: State, k: Key, n: nat, v: View, t: nat)
    requires Sees(s, k, n, v) && Moved(c, k, n, v, t).Some? && v.at[t].Truncating?
    ensures !Careless(c, s, Move(t, true)) && Sees(Step(c, s, Move(t, true)), k, n, Moved(c, k, n, v, t).value)
  {
    assert Step(c, s, Move(t, true)) == Goto(WithContent(s, n, []), t, Writing(v.at[t].item, v.at[t].buf));
  }

  lemma ContentTrue(s: State, k: Key, n: nat, v: View, content: seq<byte>)
    requires Sees(s, k, n, v)
    ensures Sees(WithContent(s, n, content), k, n, v.(content := content))
  {
  }

  lemma WritingIs(c: Config, s: State, k: Key, n: nat, v: View, t: nat)
    requires Sees(s, k, n, v) && Moved(c, k, n, v, t).Some? && v.at[t].Writing?
    ensures var i, v' := v.at[t].item, Moved(c, k, n, v, t).value;
            StepWriting(c, s, t, true) == Goto(WithItem(WithContent(s, n, v'.content), i, v'.on[i]), t, AwaitReread(i))
  {
    assert WriteAt([], v.on[v.at[t].item].pos, v.at[t].buf) == Moved(c, k, n, v, t).value.content;
  }

  lemma WritingTrue(c: Config, s: State, k: Key, n: nat, v: View, t: nat)
    requires Sees(s, k, n, v) && Moved(c, k, n, v, t).Some? && v.at[t].Writing?
    ensures Sees(StepWriting(c, s, t, true), k, n, Moved(c, k, n, v, t).value)
  {
    var i, v' := v.at[t].item, Moved(c, k, n, v, t).value;
    WritingIs(c, s, k, n, v, t);
    ContentTrue(s, k, n, v, v'.content);
    ItemTrue(WithContent(s, n, v'.content), k, n, v.(content := v'.content), t, i, v'.on[i], AwaitReread(i));
  }

  lemma MovedTrue(c: Config, s: State, k: Key, n: nat, v: View, t: nat)
    requires Sees(s, k, n, v) && Moved(c, k, n, v, t).Some?
    ensures !Careless(c, s, Move(t, true)) && Sees(Step(c, s, Move(t, true)), k, n, Moved(c, k, n, v, t).value)
  {
    var pc := v.at[t];
    if pc.Lookup? || pc.AwaitLock? || pc.LookupLocked? || pc.Releasing? {
      EntryTrue(c, s, k, n, v, t);
    } else if pc.Opening? {
      OpeningTrue(c, s, k, n, v, t);
    } else if pc.Inserting? {
      InsertingTrue(c, s, k, n, v, t);
    } else if pc.AwaitRead? || pc.AwaitReread? || pc.AwaitWrite? {
      TakingTrue(c, s, k, n, v, t);
    } else if pc.Checking? {
      CheckingTrue(c, s, k, n, v, t);
    } else if pc.Reading? {
      ReadingTrue(c, s, k, n, v, t);
    } else if pc.Truncating? {
      TruncatingTrue(c, s, k, n, v, t);
    } else if pc.Writing? {
      WritingTrue(c, s, k, n, v, t);
    } else {
      ThinkingTrue(c, s, k, n, v, t);
    }
  }

  lemma SeenTrue(c: Config, s: State, k: Key, n: nat, v: View, g: Glance)
    requires Sees(s, k, n, v) && Seen(c, k, n, v, g).Some?
    ensures !Careless(c, s, ActionOf(k, g)) && Sees(Step(c, s, ActionOf(k, g)), k, n, Seen(c, k, n, v, g).value)
  {
    if g.MoveIt? { MovedTrue(c, s, k, n, v, g.call); }
  }

  // ---------------------------------------------------------------- from view to view

  ghost predicate NextView(c: Config, k: Key, n: nat, v: View, v': View) {
    (exists g :: Seen(c, k, n, v, g) == Some(v')) || LessOf(v, v')
  }

  /** The same view of fewer calls and items. */
  ghost predicate LessOf(v: View, v': View) {
    && v' == v.(at := v'.at, on := v'.on)
    && (forall t :: t in v'.at ==> t in v.at && v'.at[t] == v.at[t])
    && (forall i :: i in v'.on ==> i in v.on && v'.on[i] == v.on[i])
  }

  ghost function NextViewOf(c: Config, k: Key, n: nat): (View, View) -> bool { (v, v') => NextView(c, k, n, v, v') }

  ghost predicate Shows(c: Config, k: Key, n: nat, v: View, v': View) { Reaches(NextViewOf(c, k, n), v, v') }

  lemma Shown(c: Config, k: Key, n: nat, v: View, g: Glance, v': View)
    requires Seen(c, k, n, v, g) == Some(v')
    ensures Shows(c, k, n, v, v')
  {
    assert NextView(c, k, n, v, v');
    Goes(NextViewOf(c, k, n), v, v');
  }

  lemma ShownLess(c: Config, k: Key, n: nat, v: View, v': View)
    requires LessOf(v, v')
    ensures Shows(c, k, n, v, v')
  {
    assert NextView(c, k, n, v, v');
    Goes(NextViewOf(c, k, n), v, v');
  }

  lemma ShowsOn(c: Config, k: Key, n: nat, v: View, mid: View, end: View)
    requires Shows(c, k, n, v, mid) && Shows(c, k, n, mid, end)
    ensures Shows(c, k, n, v, end)
  {
    GoesOn(NextViewOf(c, k, n), v, mid, end);
  }

  /** Whatever a view shows can come about, with care. */
  lemma NextComes(c: Config, s: State, k: Key, n: nat, v: View, v': View) returns (s': State)
    requires Sees(s, k, n, v) && NextView(c, k, n, v, v')
    ensures Leads(c, s, s') && Sees(s', k, n, v')
  {
    if LessOf(v, v') {
      s' := s;
      Nowhere(c, s);
    } else {
      var g :| Seen(c, k, n, v, g) == Some(v');
      SeenTrue(c, s, k, n, v, g);
      s' := Step(c, s, ActionOf(k, g));
      Once(c, s, ActionOf(k, g));
    }
  }

  lemma {:induction false} PathComes(c: Config, s: State, k: Key, n: nat, vs: seq<View>) returns (s': State)
    requires Path(NextViewOf(c, k, n), vs) && Sees(s, k, n, vs[0])
    ensures Leads(c, s, s') && Sees(s', k, n, vs[|vs| - 1])
    decreases |vs|
  {
    if |vs| == 1 {
      s' := s;
      Nowhere(c, s);
    } else {
      var m := |vs| - 1;
      assert Path(NextViewOf(c, k, n), vs[..m]);
      var s1 := PathComes(c, s, k, n, vs[..m]);
      s' := NextComes(c, s1, k, n, vs[m - 1], vs[m]);
      OnAndOn(c, s, s1, s');
    }
  }

  lemma ShownComes(c: Config, s: State, k: Key, n: nat, v: View, v': View) returns (s': State)
    requires Sees(s, k, n, v) && Shows(c, k, n, v, v')
    ensures Leads(c, s, s') && Sees(s', k, n, v')
  {
    var vs :| Path(NextViewOf(c, k, n), vs) && vs[0] == v && vs[|vs| - 1] == v';
    s' := PathComes(c, s, k, n, vs);
  }
}
