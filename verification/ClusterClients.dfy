/** What clients get: from every state that the cluster can come to, it can go on to serve any client's
    request, to the last byte of its range. */
module ClusterClients {
  import opened Common
  import opened Items
  import opened Keys
  import opened Reachability
  import opened Reader
  import opened Cluster
  import opened ClusterExact
  import ClusterServes
  import Context
  import FileViews
  import Int64
  import Segments
  import Text

  lemma Takes(cfg: Config, st: State, a: Action) returns (st': State)
    requires ClusterServes.Good(cfg, st)
    ensures st' == Step(cfg, st, a) && Comes(cfg, st, st') && ClusterServes.Good(cfg, st')
  {
    st' := Step(cfg, st, a);
    ClusterServes.StepIsGood(cfg, st, a);
    StepGoes(cfg, Any, st, a);
  }

  // ---------------------------------------------------------------- the next piece

  /** Request `q` is being answered: the file is open, and `s` is how far it is. */
  ghost predicate Serves(st: State, q: nat, s: Serving) { IsOpen(st, q) && st.serving[q] == s }

  /** The next byte to send is in the range and in the file, and in the chunk the file was opened for. */
  ghost predicate MoreToSend(cfg: Config, r: Request, s: Serving) {
    && cfg.block > 0 && s.Opened? && s.file in cfg.blobs
    && var offset := s.start + |s.sent|;
       && 0 <= offset < RangeEnd(Range(r), |cfg.blobs[s.file]|)
       && (s.chunkOffset == 0 || s.chunkOffset == Segments.AlignDown(offset, cfg.block))
  }

  /** An answer to a stat that says the length. */
  function SizeSaid(size: nat): StatResponse { StatResponse(206, 1, ContentRange(0, 0, Text.Decimal(size))) }

  lemma StatDoes(cfg: Config, st: State, q: nat, s: Serving)
    requires Sensible(cfg) && NodesOk(cfg, st) && Serves(st, q, s) && s.file in cfg.blobs
    ensures var size := |cfg.blobs[s.file]|;
            var st' := Step(cfg, st, Stat(q, SizeSaid(size)));
            Serves(st', q, s.(size := Some(size))) && s.file in st'.nodes[st.requests[q].node].sizes
  {
    assert NodeOk(cfg, st.requests, st.requests[q].node, st.nodes[st.requests[q].node]);
    FileViews.DeclaredSize(SizeSaid(|cfg.blobs[s.file]|), |cfg.blobs[s.file]|);
  }

  /** The call made for the next byte. */
  function NextCall(cfg: Config, q: nat, s: Serving): Call
    requires cfg.block > 0 && s.Opened? && s.size.Some?
  {
    var offset := s.start + |s.sent|;
    var aligned := Segments.AlignDown(offset, cfg.block);
    Call(q, ChunkId(s.file, aligned), Min(cfg.block, s.size.value - aligned), false, Some(offset))
  }

  lemma ReadDoes(cfg: Config, st: State, q: nat, s: Serving)
    requires Serves(st, q, s) && MoreToSend(cfg, st.requests[q], s) && s.size == Some(|cfg.blobs[s.file]|)
    ensures Step(cfg, st, Read(q, false)) == WithCall(st, NextCall(cfg, q, s))
  {
  }

  /** Call `d` for the next byte has returned its chunk, and the node has it. */
  ghost predicate HasPiece(cfg: Config, st: State, q: nat, s: Serving, d: nat) {
    && Serves(st, q, s) && MoreToSend(cfg, st.requests[q], s) && s.size == Some(|cfg.blobs[s.file]|)
    && d < |st.calls| && d < |st.progress| && st.calls[d] == NextCall(cfg, q, s)
    && OnGrid(cfg, st.calls[d].id) && st.progress[d].result == Some(Ok(Want(cfg, st.calls[d].id)))
    && ClusterServes.Holds(st, st.requests[q].node, st.calls[d].id, st.calls[d].count)
  }

  lemma FillDoes(cfg: Config, st: State, q: nat, s: Serving, d: nat)
    requires Serves(st, q, s) && MoreToSend(cfg, st.requests[q], s) && s.size == Some(|cfg.blobs[s.file]|)
    requires d < |st.calls| && d < |st.progress| && st.calls[d] == NextCall(cfg, q, s)
    requires st.progress[d] == Progress([], None, None) && CallExact(cfg, st.requests, st.calls[d])
    requires s.file in st.nodes[st.requests[q].node].sizes
    ensures HasPiece(cfg, Step(cfg, st, Fill(d, Response(206, Want(cfg, st.calls[d].id)), true)), q, s, d)
  {
    OriginServes(false, [], Want(cfg, st.calls[d].id));
  }

  // ---------------------------------------------------------------- what the node holds

  /** The node has the whole chunk around byte `o` of the file, and the file's size. */
  ghost predicate HoldsAround(cfg: Config, st: State, n: nat, name: string, o: int) {
    && cfg.block > 0 && name in cfg.blobs
    && var off := Segments.AlignDown(o, cfg.block);
       ClusterServes.Holds(st, n, ChunkId(name, off), Min(cfg.block, |cfg.blobs[name]| - off))
  }

  /** What was held whole is held whole. */
  ghost predicate HeldStay(cfg: Config, st: State, st': State) {
    forall n, name, o :: 0 <= o && HoldsAround(cfg, st, n, name, o) ==> HoldsAround(cfg, st', n, name, o)
  }

  lemma HeldOn(cfg: Config, st: State, mid: State, st': State)
    requires HeldStay(cfg, st, mid) && HeldStay(cfg, mid, st')
    ensures HeldStay(cfg, st, st')
  {
  }

  predicate OfServing(a: Action) { a.Stat? || a.Read? || a.Fill? || a.Deliver? }

  lemma ChunkStays(cfg: Config, st: State, a: Action, n: nat, id: ChunkId, count: int)
    requires cfg.block > 0 && OfServing(a) && ClusterServes.Holds(st, n, id, count)
    requires a.Fill? && Active(st, a.c) && st.calls[a.c].id == id ==> st.calls[a.c].count == count
    ensures ClusterServes.Holds(Step(cfg, st, a), n, id, count)
  {
  }

  lemma CountIsRest(cfg: Config, st: State, c: nat, name: string, o: int)
    requires cfg.block > 0 && c < |st.calls| && CallExact(cfg, st.requests, st.calls[c])
    requires st.calls[c].id == ChunkId(name, Segments.AlignDown(o, cfg.block)) && name in cfg.blobs
    ensures st.calls[c].count == Min(cfg.block, |cfg.blobs[name]| - Segments.AlignDown(o, cfg.block))
  {
  }

  lemma AllHeldStay(cfg: Config, st: State, a: Action)
    requires ClusterServes.Good(cfg, st) && OfServing(a)
    ensures HeldStay(cfg, st, Step(cfg, st, a))
  {
    var st' := Step(cfg, st, a);
    forall n, name, o | 0 <= o && HoldsAround(cfg, st, n, name, o) ensures HoldsAround(cfg, st', n, name, o) {
      var off := Segments.AlignDown(o, cfg.block);
      if a.Fill? && Active(st, a.c) && st.calls[a.c].id == ChunkId(name, off) { CountIsRest(cfg, st, a.c, name, o); }
      ChunkStays(cfg, st, a, n, ChunkId(name, off), Min(cfg.block, |cfg.blobs[name]| - off));
    }
  }

  /** The node that answers the request holds what the next piece is of. */
  ghost predicate HoldsPiece(cfg: Config, st: State, r: Request, s: Serving)
    requires MoreToSend(cfg, r, s)
  {
    forall o :: s.start + |s.sent| <= o < PieceEnd(cfg, r, s) ==> HoldsAround(cfg, st, r.node, s.file, o)
  }

  /** The piece lies in one chunk. */
  lemma PieceInChunk(cfg: Config, r: Request, s: Serving, o: int)
    requires MoreToSend(cfg, r, s) && s.start + |s.sent| <= o < PieceEnd(cfg, r, s)
    ensures Segments.AlignDown(o, cfg.block) == Segments.AlignDown(s.start + |s.sent|, cfg.block)
  {
    var offset := s.start + |s.sent|;
    Segments.AlignDownBlock(offset, cfg.block);
    Segments.AlignDownBlock(o, cfg.block);
    var a, b := Segments.AlignDown(offset, cfg.block), Segments.AlignDown(o, cfg.block);
    if a <= b { Segments.SameBlock(b, a, cfg.block); } else { Segments.SameBlock(a, b, cfg.block); }
  }

  lemma PieceIsHeld(cfg: Config, st: State, q: nat, s: Serving, d: nat)
    requires HasPiece(cfg, st, q, s, d)
    ensures HoldsPiece(cfg, st, st.requests[q], s)
  {
    var r := st.requests[q];
    forall o | s.start + |s.sent| <= o < PieceEnd(cfg, r, s) ensures HoldsAround(cfg, st, r.node, s.file, o) {
      PieceInChunk(cfg, r, s, o);
    }
  }

  // ---------------------------------------------------------------- sending it

  /** Where the piece ends: with the chunk, or with the range. */
  function PieceEnd(cfg: Config, r: Request, s: Serving): int
    requires MoreToSend(cfg, r, s)
  {
    var aligned := Segments.AlignDown(s.start + |s.sent|, cfg.block);
    Min(aligned + cfg.block, RangeEnd(Range(r), |cfg.blobs[s.file]|))
  }

  lemma PieceInFile(cfg: Config, r: Request, s: Serving)
    requires MoreToSend(cfg, r, s)
    ensures s.start + |s.sent| < PieceEnd(cfg, r, s) <= |cfg.blobs[s.file]|
    ensures var off := Segments.AlignDown(s.start + |s.sent|, cfg.block);
            0 <= off <= s.start + |s.sent| && PieceEnd(cfg, r, s) <= off + cfg.block
  {
    Segments.AlignDownBlock(s.start + |s.sent|, cfg.block);
  }

  /** What the serving is once the next piece has been sent. */
  function Sent(cfg: Config, r: Request, s: Serving): Serving
    requires MoreToSend(cfg, r, s)
  {
    PieceInFile(cfg, r, s);
    s.(size := Some(|cfg.blobs[s.file]|), sent := s.sent + cfg.blobs[s.file][s.start + |s.sent|..PieceEnd(cfg, r, s)])
  }

  function SendIt(cfg: Config, r: Request, s: Serving, d: nat): Action
    requires MoreToSend(cfg, r, s)
  {
    PieceInFile(cfg, r, s);
    Deliver(d, PieceEnd(cfg, r, s) - (s.start + |s.sent|))
  }

  /** The piece, where it lies in the chunk. */
  lemma PieceOfWant(blob: seq<byte>, block: int, off: nat, offset: nat, end: nat)
    requires block > 0 && off <= offset < end <= |blob| && end <= off + block
    ensures end - off <= |Chunk(blob, off, block)|
    ensures blob[offset..end] == Chunk(blob, off, block)[offset - off..offset - off + (end - offset)]
  {
    FileViews.PieceOfChunk(blob, off, offset, block, end - offset);
  }

  lemma DeliverAdds(cfg: Config, st: State, q: nat, s: Serving, d: nat, n: nat, bytes: seq<byte>)
    requires cfg.block > 0 && CanDeliver(st, d, n) && Serves(st, q, s) && st.calls[d].session == q
    requires var pos := st.calls[d].at.value - st.calls[d].id.off;
             bytes == st.progress[d].result.value.value[pos..pos + n]
    ensures Serves(Step(cfg, st, Deliver(d, n)), q, s.(sent := s.sent + bytes))
  {
  }

  /** The piece is what the call has brought from the next byte on. */
  lemma PieceIsBrought(cfg: Config, st: State, q: nat, s: Serving, d: nat, offset: int, end: int)
    requires HasPiece(cfg, st, q, s, d)
    requires offset == s.start + |s.sent| && end == PieceEnd(cfg, st.requests[q], s)
    ensures 0 <= offset < end <= |cfg.blobs[s.file]|
    ensures var off, want := st.calls[d].id.off, Want(cfg, st.calls[d].id);
            && off <= offset && end - off <= |want| && st.calls[d].at == Some(offset)
            && cfg.blobs[s.file][offset..end] == want[offset - off..offset - off + (end - offset)]
  {
    PieceInFile(cfg, st.requests[q], s);
    PieceOfWant(cfg.blobs[s.file], cfg.block, st.calls[d].id.off, offset, end);
  }

  /** And it can be sent. */
  lemma DeliverCan(cfg: Config, st: State, q: nat, s: Serving, d: nat, offset: int, end: int)
    requires HasPiece(cfg, st, q, s, d)
    requires offset == s.start + |s.sent| && end == PieceEnd(cfg, st.requests[q], s)
    ensures offset < end && CanDeliver(st, d, end - offset)
  {
    PieceIsBrought(cfg, st, q, s, d, offset, end);
  }

  lemma DeliverDoes(cfg: Config, st: State, q: nat, s: Serving, d: nat)
    requires HasPiece(cfg, st, q, s, d)
    ensures Serves(Step(cfg, st, SendIt(cfg, st.requests[q], s, d)), q, Sent(cfg, st.requests[q], s))
  {
    var offset, end := s.start + |s.sent|, PieceEnd(cfg, st.requests[q], s);
    PieceIsBrought(cfg, st, q, s, d, offset, end);
    DeliverCan(cfg, st, q, s, d, offset, end);
    DeliverAdds(cfg, st, q, s, d, end - offset, cfg.blobs[s.file][offset..end]);
  }

  lemma Delivered(cfg: Config, st: State, q: nat, s: Serving, d: nat) returns (st': State)
    requires ClusterServes.Good(cfg, st) && HasPiece(cfg, st, q, s, d)
    ensures ClusterServes.Good(cfg, st') && Comes(cfg, st, st') && st'.requests == st.requests
    ensures Serves(st', q, Sent(cfg, st.requests[q], s)) && HeldStay(cfg, st, st')
    ensures HoldsPiece(cfg, st', st.requests[q], s)
  {
    var a := SendIt(cfg, st.requests[q], s, d);
    DeliverDoes(cfg, st, q, s, d);
    PieceIsHeld(cfg, st, q, s, d);
    DeliverKeepsRequests(cfg, st, a);
    AllHeldStay(cfg, st, a);
    st' := Takes(cfg, st, a);
  }

  lemma SizedSends(cfg: Config, st: State, q: nat, s: Serving) returns (st': State)
    requires ClusterServes.Good(cfg, st) && Serves(st, q, s) && MoreToSend(cfg, st.requests[q], s)
    requires s.size == Some(|cfg.blobs[s.file]|) && s.file in st.nodes[st.requests[q].node].sizes
    ensures ClusterServes.Good(cfg, st') && Comes(cfg, st, st') && st'.requests == st.requests
    ensures Serves(st', q, Sent(cfg, st.requests[q], s)) && HeldStay(cfg, st, st')
    ensures HoldsPiece(cfg, st', st.requests[q], s)
  {
    var st1, d := Fetched(cfg, st, q, s);
    st' := Delivered(cfg, st1, q, s, d);
    ComesOn(cfg, st, st1, st');
    HeldOn(cfg, st, st1, st');
  }

  lemma SizeIsNoMatter(cfg: Config, r: Request, s: Serving)
    requires MoreToSend(cfg, r, s)
    ensures var s1 := s.(size := Some(|cfg.blobs[s.file]|));
            MoreToSend(cfg, r, s1) && Sent(cfg, r, s1) == Sent(cfg, r, s) && PieceEnd(cfg, r, s1) == PieceEnd(cfg, r, s)
  {
  }

  /** The next piece can be sent, whatever is cached and whoever is slow. */
  lemma NextPiece(cfg: Config, st: State, q: nat, s: Serving) returns (st': State)
    requires ClusterServes.Good(cfg, st) && Serves(st, q, s) && MoreToSend(cfg, st.requests[q], s)
    ensures ClusterServes.Good(cfg, st') && Comes(cfg, st, st') && st'.requests == st.requests
    ensures Serves(st', q, Sent(cfg, st.requests[q], s)) && HeldStay(cfg, st, st')
    ensures HoldsPiece(cfg, st', st.requests[q], s)
  {
    SizeIsNoMatter(cfg, st.requests[q], s);
    var st1 := Sized(cfg, st, q, s);
    st' := SizedSends(cfg, st1, q, s.(size := Some(|cfg.blobs[s.file]|)));
    ComesOn(cfg, st, st1, st');
    HeldOn(cfg, st, st1, st');
  }

  lemma DeliverKeepsRequests(cfg: Config, st: State, a: Action)
    requires cfg.block > 0 && OfServing(a)
    ensures Step(cfg, st, a).requests == st.requests
  {
  }

  lemma Sized(cfg: Config, st: State, q: nat, s: Serving) returns (st': State)
    requires ClusterServes.Good(cfg, st) && Serves(st, q, s) && s.file in cfg.blobs
    ensures ClusterServes.Good(cfg, st') && Comes(cfg, st, st') && st'.requests == st.requests
    ensures Serves(st', q, s.(size := Some(|cfg.blobs[s.file]|))) && s.file in st'.nodes[st.requests[q].node].sizes
    ensures HeldStay(cfg, st, st')
  {
    var a := Stat(q, SizeSaid(|cfg.blobs[s.file]|));
    StatDoes(cfg, st, q, s);
    DeliverKeepsRequests(cfg, st, a);
    AllHeldStay(cfg, st, a);
    st' := Takes(cfg, st, a);
  }

  lemma Fetched(cfg: Config, st: State, q: nat, s: Serving) returns (st': State, d: nat)
    requires ClusterServes.Good(cfg, st) && Serves(st, q, s) && MoreToSend(cfg, st.requests[q], s)
    requires s.size == Some(|cfg.blobs[s.file]|)
    requires s.file in st.nodes[st.requests[q].node].sizes
    ensures ClusterServes.Good(cfg, st') && Comes(cfg, st, st') && st'.requests == st.requests
    ensures HasPiece(cfg, st', q, s, d) && HeldStay(cfg, st, st')
  {
    ReadDoes(cfg, st, q, s);
    var st1 := Takes(cfg, st, Read(q, false));
    d := |st.calls|;
    assert st1.calls[d] == NextCall(cfg, q, s) && CallExact(cfg, st1.requests, st1.calls[d]);
    FillDoes(cfg, st1, q, s, d);
    var a := Fill(d, Response(206, Want(cfg, st1.calls[d].id)), true);
    DeliverKeepsRequests(cfg, st1, a);
    st' := Takes(cfg, st1, a);
    ComesOn(cfg, st, st1, st');
    AllHeldStay(cfg, st, Read(q, false));
    AllHeldStay(cfg, st1, a);
  }

  // ---------------------------------------------------------------- the whole range

  /** Everything from the next byte to `end` has been sent. */
  predicate SentUpTo(blob: seq<byte>, s: Serving, s': Serving, end: int) {
    && s.Opened? && s'.Opened? && s' == s.(size := s'.size, sent := s'.sent)
    && var offset := s.start + |s.sent|;
       s'.sent == s.sent + if 0 <= offset < end <= |blob| then blob[offset..end] else []
  }

  ghost predicate AllSent(cfg: Config, r: Request, s: Serving, s': Serving) {
    && s.Opened? && s.file in cfg.blobs && 0 <= s.start
    && SentUpTo(cfg.blobs[s.file], s, s', RangeEnd(Range(r), |cfg.blobs[s.file]|))
  }

  lemma SentOn(blob: seq<byte>, s: Serving, s1: Serving, s': Serving, mid: int, end: int)
    requires s.Opened? && s1.Opened? && 0 <= s.start + |s.sent| < mid <= end <= |blob|
    requires s1 == s.(size := s1.size, sent := s.sent + blob[s.start + |s.sent|..mid])
    requires SentUpTo(blob, s1, s', end)
    ensures SentUpTo(blob, s, s', end)
  {
    var offset := s.start + |s.sent|;
    assert blob[offset..mid] + blob[mid..end] == blob[offset..end];
  }

  lemma SentThenRest(cfg: Config, r: Request, s: Serving, s': Serving)
    requires MoreToSend(cfg, r, s) && AllSent(cfg, r, Sent(cfg, r, s), s')
    ensures AllSent(cfg, r, s, s')
  {
    PieceInFile(cfg, r, s);
    var blob, end := cfg.blobs[s.file], RangeEnd(Range(r), |cfg.blobs[s.file]|);
    assert end <= |blob|;
    SentOn(blob, s, Sent(cfg, r, s), s', PieceEnd(cfg, r, s), end);
  }

  /** The node that answers the request holds the chunks from byte `from` to the end of the range. */
  ghost predicate HoldsFrom(cfg: Config, st: State, r: Request, name: string, from: int) {
    && name in cfg.blobs
    && forall o :: from <= o < RangeEnd(Range(r), |cfg.blobs[name]|) ==> HoldsAround(cfg, st, r.node, name, o)
  }

  lemma PieceThenRest(cfg: Config, st: State, st': State, r: Request, s: Serving)
    requires MoreToSend(cfg, r, s) && HoldsPiece(cfg, st, r, s) && HeldStay(cfg, st, st')
    requires HoldsFrom(cfg, st', r, s.file, PieceEnd(cfg, r, s))
    ensures HoldsFrom(cfg, st', r, s.file, s.start + |s.sent|)
  {
  }

  lemma {:induction false} SendsAll(cfg: Config, st: State, q: nat, s: Serving) returns (st': State)
    requires ClusterServes.Good(cfg, st) && Serves(st, q, s) && s.chunkOffset == 0
    requires s.file in cfg.blobs && s.start >= 0
    ensures Comes(cfg, st, st') && st'.requests == st.requests && HeldStay(cfg, st, st')
    ensures IsOpen(st', q) && AllSent(cfg, st.requests[q], s, st'.serving[q])
    ensures HoldsFrom(cfg, st', st.requests[q], s.file, s.start + |s.sent|)
    decreases RangeEnd(Range(st.requests[q]), |cfg.blobs[s.file]|) - s.start - |s.sent|
  {
    if s.start + |s.sent| < RangeEnd(Range(st.requests[q]), |cfg.blobs[s.file]|) {
      var st1 := NextPiece(cfg, st, q, s);
      var s1 := Sent(cfg, st.requests[q], s);
      PieceInFile(cfg, st.requests[q], s);
      st' := SendsAll(cfg, st1, q, s1);
      SentThenRest(cfg, st.requests[q], s, st'.serving[q]);
      PieceThenRest(cfg, st1, st', st.requests[q], s);
      ComesOn(cfg, st, st1, st');
    } else {
      st' := st;
      Stays(StepsWhere(cfg, Any), st);
    }
  }

  // ---------------------------------------------------------------- every client

  /** Requests are for nodes there are; and only peers, and ranges that do not parse, are refused. */
  ghost predicate Fair(st: State) {
    && (forall q :: 0 <= q < |st.requests| ==> st.requests[q].node < |st.nodes|)
    && (forall q :: q in st.serving && st.serving[q].Refused? ==> q < |st.requests| && Refusable(st.requests[q]))
  }

  predicate Refusable(r: Request) { Marked(r) || RangeStartIndex(Range(r)).Err? }

  lemma AdmitIsFair(cfg: Config, st: State, q: nat)
    requires Sensible(cfg) && NamesOk(cfg, st.requests) && Fair(st)
    ensures Fair(DoAdmit(cfg, st, q))
  {
    if DoAdmit(cfg, st, q) != st && RangeStartIndex(Range(st.requests[q])).Ok? {
      var start := RangeStartIndex(Range(st.requests[q])).value;
      AdmissionExactly(cfg, st.requests[q], st.nodes[st.requests[q].node], start);
    }
  }

  lemma StepIsFair(cfg: Config, st: State, a: Action)
    requires Sensible(cfg) && NamesOk(cfg, st.requests) && Fair(st)
    ensures Fair(Step(cfg, st, a))
  {
    if a.Admit? {
      AdmitIsFair(cfg, st, a.q);
    } else {
      OthersAreFair(cfg, st, a);
    }
  }

  lemma OthersAreFair(cfg: Config, st: State, a: Action)
    requires cfg.block > 0 && Fair(st) && !a.Admit?
    ensures Fair(Step(cfg, st, a))
  {
    PlacesStay(cfg, st, a);
    RefusalsStay(cfg, st, a);
  }

  lemma PlacesStay(cfg: Config, st: State, a: Action)
    requires cfg.block > 0 && forall q :: 0 <= q < |st.requests| ==> st.requests[q].node < |st.nodes|
    ensures var st' := Step(cfg, st, a);
            st.requests <= st'.requests && forall q :: 0 <= q < |st'.requests| ==> st'.requests[q].node < |st'.nodes|
  {
  }

  lemma RefusalsStay(cfg: Config, st: State, a: Action)
    requires cfg.block > 0 && !a.Admit?
    ensures forall q :: q in Step(cfg, st, a).serving && Step(cfg, st, a).serving[q].Refused? ==>
              q in st.serving && st.serving[q].Refused?
  {
  }

  lemma {:induction false} RunIsFair(cfg: Config, nodes: nat, acts: seq<Action>)
    requires Sensible(cfg)
    ensures Fair(Run(cfg, nodes, acts))
    decreases |acts|
  {
    if acts != [] {
      var before := acts[..|acts| - 1];
      RunIsFair(cfg, nodes, before);
      RunKeepsInv(cfg, nodes, before);
      StepIsFair(cfg, Run(cfg, nodes, before), acts[|acts| - 1]);
    }
  }

  /** How much has been sent for request `q`. */
  function SentBy(st: State, q: nat): nat {
    if q in st.serving && st.serving[q].Opened? then |st.serving[q].sent| else 0
  }

  /** A client's request, not yet looked at or being answered, comes to be open. */
  lemma ClientOpens(cfg: Config, st: State, q: nat, start: int) returns (st': State)
    requires ClusterServes.Good(cfg, st) && Fair(st) && q < |st.requests|
    requires !Marked(st.requests[q]) && RangeStartIndex(Range(st.requests[q])) == Ok(start)
    ensures ClusterServes.Good(cfg, st') && Comes(cfg, st, st') && st'.requests == st.requests
    ensures IsOpen(st', q) && |st'.serving[q].sent| == SentBy(st, q)
  {
    if q in st.serving {
      st' := st;
      Stays(StepsWhere(cfg, Any), st);
    } else {
      var r := st.requests[q];
      AdmissionExactly(cfg, r, st.nodes[r.node], start);
      st' := Takes(cfg, st, Admit(q));
    }
  }

  lemma ClientGetsRange(cfg: Config, st: State, q: nat, start: int) returns (st': State)
    requires ClusterServes.Good(cfg, st) && Fair(st) && q < |st.requests|
    requires !Marked(st.requests[q]) && RangeStartIndex(Range(st.requests[q])) == Ok(start)
    ensures Comes(cfg, st, st') && IsOpen(st', q) && st'.requests == st.requests
    ensures Gotten(cfg, st.requests[q], start, st'.serving[q])
    ensures HoldsFrom(cfg, st', st.requests[q], st.requests[q].name, start + SentBy(st, q))
  {
    var st1 := ClientOpens(cfg, st, q, start);
    var s := st1.serving[q];
    assert ServingOk(cfg, st1.requests[q], s);
    st' := SendsAll(cfg, st1, q, s);
    ComesOn(cfg, st, st1, st');
    AllGotten(cfg, st.requests[q], start, s, st'.serving[q]);
  }

  /** The answer is everything from `start` to the end of the range. */
  ghost predicate Gotten(cfg: Config, r: Request, start: int, s: Serving) {
    && s.Opened? && r.name in cfg.blobs
    && var end := RangeEnd(Range(r), |cfg.blobs[r.name]|);
       s.sent == if 0 <= start < end <= |cfg.blobs[r.name]| then cfg.blobs[r.name][start..end] else []
  }

  lemma AllGotten(cfg: Config, r: Request, start: int, s: Serving, s': Serving)
    requires ServingOk(cfg, r, s) && s.Opened? && s.start == start && AllSent(cfg, r, s, s')
    ensures Gotten(cfg, r, start, s')
  {
    var blob, offset, end := cfg.blobs[r.name], start + |s.sent|, RangeEnd(Range(r), |cfg.blobs[r.name]|);
    if s.sent != [] && offset < end { assert blob[start..offset] + blob[offset..end] == blob[start..end]; }
  }

  /** In every run, whatever has happened so far: the cluster can go on so that a client who sent
      `bytes=a-b` gets exactly those of these bytes that the file has; and the node then holds every chunk
      that it still had to send some of. */
  lemma ClientIsServed(cfg: Config, nodes: nat, acts: seq<Action>, q: nat, a: nat, b: nat) returns (more: seq<Action>)
    requires Sensible(cfg) && q < |Run(cfg, nodes, acts).requests| && !Marked(Run(cfg, nodes, acts).requests[q])
    requires Range(Run(cfg, nodes, acts).requests[q]) == RangeHeader(a, b) && a <= b && Int64.Is(b + 1)
    ensures var r, e := Run(cfg, nodes, acts).requests[q], Run(cfg, nodes, acts + more);
            && IsOpen(e, q) && e.requests[q] == r && r.name in cfg.blobs
            && var blob := cfg.blobs[r.name];
               && e.serving[q].sent == (if a < |blob| then blob[a..Min(b + 1, |blob|)] else [])
               && forall o :: a + SentBy(Run(cfg, nodes, acts), q) <= o < Min(b + 1, |blob|) ==>
                    HoldsAround(cfg, e, r.node, r.name, o)
  {
    var st := Run(cfg, nodes, acts);
    ClusterServes.RunIsGood(cfg, nodes, acts);
    RunIsFair(cfg, nodes, acts);
    RangeRoundTrip(a, b - a + 1);
    RangeCovers(a, b - a + 1);
    var st' := ClientGetsRange(cfg, st, q, a);
    more := GoesByRun(cfg, Any, nodes, acts, st');
  }

  lemma RunClient(cfg: Config, nodes: nat, acts: seq<Action>, n: nat, name: string, headers: Context.Headers)
    requires Sensible(cfg) && n < |Run(cfg, nodes, acts).nodes| && name in cfg.blobs
    ensures var q, st := |Run(cfg, nodes, acts).requests|, Run(cfg, nodes, acts + [Client(n, name, headers)]);
            q < |st.requests| && st.requests[q] == Request(n, name, headers, None) && SentBy(st, q) == 0
  {
    RunKeepsInv(cfg, nodes, acts);
    var all := acts + [Client(n, name, headers)];
    assert all[..|all| - 1] == acts;
  }

  /** In every run, a client can come with `bytes=a-b` to any node, get exactly those of these bytes that
      the file has, and leave the node holding every chunk they are of, and the file's size. That is all
      that `ClusterServes.ChunkTravels` needs for the chunks to reach other nodes without the origin. */
  lemma NewClientIsServed(cfg: Config, nodes: nat, acts: seq<Action>, n: nat, name: string, headers: Context.Headers,
                          a: nat, b: nat)
      returns (more: seq<Action>)
    requires Sensible(cfg) && n < |Run(cfg, nodes, acts).nodes| && name in cfg.blobs
    requires !Context.IsRequestFromAPeer(headers) && Context.Get(headers, Context.RANGE_HEADER) == RangeHeader(a, b)
    requires a <= b && Int64.Is(b + 1)
    ensures var q := |Run(cfg, nodes, acts).requests|;
            var e := Run(cfg, nodes, acts + [Client(n, name, headers)] + more);
            var blob := cfg.blobs[name];
            && IsOpen(e, q) && e.requests[q].node == n
            && e.serving[q].sent == (if a < |blob| then blob[a..Min(b + 1, |blob|)] else [])
            && forall o :: a <= o < Min(b + 1, |blob|) ==> HoldsAround(cfg, e, n, name, o)
  {
    RunClient(cfg, nodes, acts, n, name, headers);
    var q := |Run(cfg, nodes, acts).requests|;
    more := ClientIsServed(cfg, nodes, acts + [Client(n, name, headers)], q, a, b);
  }
}
