/** The text that carries a chunk's identity between nodes: the Range header (reader.go, context.go),
    the chunk key (files.go, store.go), the Content-Range of a stat (reader.go) and the cache's file
    path (filecache.go). */
module Keys {
  import opened Common
  import opened Text
  import Int64
  import Segments

  const SEP: char := '_'

  // ---------------------------------------------------------------- ranges

  /** remoteRequest's `bytes=%d-%d`, both ends included. */
  function RangeHeader(start: int, end: int): string {
    "bytes=" + Decimal(start) + "-" + Decimal(end)
  }

  function RangeStartIndex(rangeValue: string): Result<int> {
    if rangeValue == "" then Err
    else
      var parts := Split(rangeValue, '=');
      if |parts| != 2 || parts[0] != "bytes" then Err
      else
        var ranges := Split(parts[1], '-');
        if |ranges| != 2 then Err
        else
          match ParseInt(ranges[0])
          case Number(n) => Ok(n)
          case BadSyntax => Err
          case OutOfRange(_) => Err
  }

  lemma DecimalClean(n: nat, c: char)
    requires !IsDigit(c)
    ensures c !in Decimal(n)
  {
    DigitsClean(n);
  }

  lemma UnitSplits(tail: string)
    requires '=' !in tail
    ensures Split("bytes=" + tail, '=') == ["bytes", tail]
  {
    var unit := "bytes";
    SplitNone(tail, '=');
    SplitFirst(unit, '=', tail);
    assert "bytes=" + tail == unit + ['='] + tail;
  }

  lemma SignedClean(n: int)
    ensures '=' !in Decimal(n)
  {
    DecimalClean(if n < 0 then -n else n, '=');
  }

  lemma HeaderSplits(start: nat, end: int)
    ensures Split(RangeHeader(start, end), '=') == ["bytes", Decimal(start) + "-" + Decimal(end)]
  {
    var tail := Decimal(start) + "-" + Decimal(end);
    SignedClean(start);
    SignedClean(end);
    assert '=' !in tail;
    UnitSplits(tail);
    assert RangeHeader(start, end) == "bytes=" + tail;
  }

  lemma RangeSplits(start: nat, end: nat)
    ensures Split(Decimal(start) + "-" + Decimal(end), '-') == [Decimal(start), Decimal(end)]
  {
    DecimalClean(start, '-');
    DecimalClean(end, '-');
    SplitNone(Decimal(end), '-');
    SplitFirst(Decimal(start), '-', Decimal(end));
    assert Decimal(start) + "-" + Decimal(end) == Decimal(start) + ['-'] + Decimal(end);
  }

  /** An empty range ending at -1 prints a second dash, which the parser refuses. */
  lemma EmptyRangeRefused(start: nat, end: int)
    requires end < 0
    ensures RangeStartIndex(RangeHeader(start, end)) == Err
  {
    var tail := Decimal(start) + "-" + Decimal(end);
    HeaderSplits(start, end);
    DecimalClean(start, '-');
    assert tail == Decimal(start) + ['-'] + ("" + ['-'] + Digits(-end));
    SplitFirst(Decimal(start), '-', "" + ['-'] + Digits(-end));
    SplitFirst("", '-', Digits(-end));
  }

  /** A node parses the start it was sent exactly when the range it was sent is not the empty one. */
  lemma RangeRoundTrip(start: int, len: nat)
    requires 0 <= start && Int64.Is(start)
    ensures RangeStartIndex(RangeHeader(start, start + len - 1)) == if start + len > 0 then Ok(start) else Err
  {
    var end := start + len - 1;
    if end >= 0 {
      HeaderSplits(start, end);
      RangeSplits(start, end);
      DecimalRoundTrip(start);
      assert RangeHeader(start, end) != "";
    } else {
      EmptyRangeRefused(start, end);
    }
  }

  /** A range of one interval of bytes, whose first position reads `n`. */
  ghost predicate IsRangeFrom(v: string, n: int) {
    exists a, b :: v == "bytes=" + a + "-" + b && '=' !in a + b && '-' !in a + b && ParseInt(a) == Number(n)
  }

  /** Exactly such ranges are parsed; what follows the dash does not matter. */
  lemma RangeParsesExactly(v: string, n: int)
    ensures RangeStartIndex(v) == Ok(n) <==> IsRangeFrom(v, n)
  {
    if RangeStartIndex(v) == Ok(n) {
      var parts := Split(v, '=');
      SplitTwo(v, '=');
      SplitTwo(parts[1], '-');
      var ranges := Split(parts[1], '-');
      assert v == "bytes=" + ranges[0] + "-" + ranges[1];
      assert forall c :: c in ranges[0] + ranges[1] ==> c in parts[1];
    }
    if IsRangeFrom(v, n) {
      var a, b :| v == "bytes=" + a + "-" + b && '=' !in a + b && '-' !in a + b && ParseInt(a) == Number(n);
      var tail := a + "-" + b;
      assert v == "bytes=" + tail;
      assert forall c :: c in tail ==> c in a + b || c == '-';
      UnitSplits(tail);
      assert forall c :: c in a || c in b ==> c in a + b;
      SplitFirst(a, '-', b);
      SplitNone(b, '-');
      assert tail == a + ['-'] + b;
    }
  }

  /** The whole interval, as a server of single ranges reads it (section 14.1.2 of RFC 9110). */
  function RangeBounds(rangeValue: string): Result<(int, int)> {
    var parts := Split(rangeValue, '=');
    if |parts| != 2 || parts[0] != "bytes" then Err
    else
      var ranges := Split(parts[1], '-');
      if |ranges| != 2 then Err
      else
        var a, b := ParseInt(ranges[0]), ParseInt(ranges[1]);
        if a.Number? && b.Number? then Ok((a.n, b.n)) else Err
  }

  /** The printed range is inclusive, so it covers exactly `len` bytes. */
  lemma RangeCovers(start: int, len: nat)
    requires 0 <= start && len > 0 && Int64.Is(start + len)
    ensures RangeBounds(RangeHeader(start, start + len - 1)) == Ok((start, start + len - 1))
  {
    HeaderSplits(start, start + len - 1);
    RangeSplits(start, start + len - 1);
    DecimalRoundTrip(start);
    DecimalRoundTrip(start + len - 1);
  }

  // ---------------------------------------------------------------- chunk keys

  function FileChunkKey(name: string, offset: int, block: int): string
    requires block > 0
  {
    name + [SEP] + Decimal(Segments.AlignDown(offset, block))
  }

  /** How Open takes a key apart: the first two pieces, ignoring a parse error. A key without a
      separator has no second piece, and Open would not survive it. */
  function OpenKey(key: string): Option<(string, int)> {
    var tokens := Split(key, SEP);
    if |tokens| < 2 then None else Some((tokens[0], ParseInt(tokens[1]).Get()))
  }

  /** Open recovers the file's name from the key exactly when the name has no separator in it, and
      then it recovers the aligned offset as well. */
  lemma ChunkKeyRoundTrip(name: string, offset: int, block: int)
    requires block > 0 && 0 <= offset && Int64.Is(offset)
    ensures OpenKey(FileChunkKey(name, offset, block)).Some?
    ensures OpenKey(FileChunkKey(name, offset, block)).value.0 == name <==> SEP !in name
    ensures SEP !in name ==>
              OpenKey(FileChunkKey(name, offset, block)) == Some((name, Segments.AlignDown(offset, block)))
  {
    var aligned := Segments.AlignDown(offset, block);
    Segments.AlignDownBlock(offset, block);
    var key := FileChunkKey(name, offset, block);
    FirstPieceClean(key, SEP);
    AtLeastTwo(name, SEP, Decimal(aligned));
    if SEP !in name {
      SplitFirst(name, SEP, Decimal(aligned));
      DecimalClean(aligned, SEP);
      SplitNone(Decimal(aligned), SEP);
      DecimalRoundTrip(aligned);
    }
  }

  lemma {:induction false} AtLeastTwo(a: string, sep: char, b: string)
    ensures |Split(a + [sep] + b, sep)| >= 2
    decreases |a|
  {
    var s := a + [sep] + b;
    if a == "" {
      assert s[0] == sep;
    } else {
      assert s[1..] == a[1..] + [sep] + b;
      AtLeastTwo(a[1..], sep, b);
    }
  }

  /** The way of a chunk's identity across nodes: the range one node prints for a chunk, parsed,
      turned into a key and taken apart by another, is the chunk; and the key is the one the
      prefetch worker advertises for it. */
  lemma CrossNodeKey(name: string, aligned: int, len: nat, block: int)
    requires block > 0 && 0 <= aligned && Int64.Is(aligned + len) && len > 0 && SEP !in name
    requires aligned % block == 0
    ensures var start := RangeStartIndex(RangeHeader(aligned, aligned + len - 1));
            && start == Ok(aligned)
            && OpenKey(FileChunkKey(name, start.value, block)) == Some((name, aligned))
    ensures RangeBounds(RangeHeader(aligned, aligned + len - 1)) == Ok((aligned, aligned + len - 1))
  {
    RangeRoundTrip(aligned, len);
    RangeCovers(aligned, len);
    ChunkKeyRoundTrip(name, aligned, block);
    Segments.AlignDownBlock(aligned, block);
  }

  /** Any start inside a chunk leads to the same key, so chunks are what is advertised and looked up. */
  lemma SameChunkSameKey(name: string, a: int, b: int, block: int)
    requires block > 0 && 0 <= a && 0 <= b && Int64.Is(a) && Int64.Is(b) && SEP !in name
    ensures FileChunkKey(name, a, block) == FileChunkKey(name, b, block) <==>
            Segments.AlignDown(a, block) == Segments.AlignDown(b, block)
  {
    ChunkKeyRoundTrip(name, a, block);
    ChunkKeyRoundTrip(name, b, block);
  }

  // ---------------------------------------------------------------- sizes

  /** A response to a stat: its status, Content-Length (-1 if unknown), and Content-Range if sent. */
  datatype StatResponse = StatResponse(status: int, contentLength: int, contentRange: string)

  function FstatSize(r: StatResponse): Result<int> {
    if r.status == 200 then Ok(r.contentLength)
    else if r.status == 206 then
      if r.contentRange == "" then Ok(r.contentLength)
      else
        var pos := LastIndex(r.contentRange, '/');
        if pos < 0 then Ok(r.contentLength) else Ok(ParseInt(r.contentRange[pos + 1..]).Get())
    else Err
  }

  /** Section 14.4 of RFC 9110: `bytes first-last/complete`. */
  function ContentRange(first: nat, last: nat, complete: string): string {
    "bytes " + Decimal(first) + "-" + Decimal(last) + "/" + complete
  }

  /** The complete length is recovered whatever range precedes it. */
  lemma ContentRangeSize(first: nat, last: nat, size: nat, len: int)
    requires Int64.Is(size)
    ensures FstatSize(StatResponse(206, len, ContentRange(first, last, Decimal(size)))) == Ok(size)
  {
    var before := "bytes " + Decimal(first) + "-" + Decimal(last);
    assert ContentRange(first, last, Decimal(size)) == before + ['/'] + Decimal(size);
    DecimalClean(size, '/');
    AfterLast(before, '/', Decimal(size));
    DecimalRoundTrip(size);
  }

  /** A server that keeps the complete length to itself, as the same section lets it, is believed to
      have said zero, which is right if and only if the blob is empty. */
  lemma UnknownSizeIsZero(first: nat, last: nat, len: int, size: nat)
    ensures FstatSize(StatResponse(206, len, ContentRange(first, last, "*"))).Ok?
    ensures FstatSize(StatResponse(206, len, ContentRange(first, last, "*"))) == Ok(size) <==> size == 0
  {
    var before := "bytes " + Decimal(first) + "-" + Decimal(last);
    assert ContentRange(first, last, "*") == before + ['/'] + "*";
    AfterLast(before, '/', "*");
    assert Value("*") == None;
  }

  // ---------------------------------------------------------------- file paths

  /** filepath.Join of components that are already clean. */
  function GetKey(path: string, name: string, offset: nat): string {
    path + "/" + name + "/" + Decimal(offset)
  }

  /** Different chunks live in different files. */
  lemma GetKeyInjective(path: string, n1: string, o1: nat, n2: string, o2: nat)
    requires '/' !in n1 && '/' !in n2 && Int64.Is(o1) && Int64.Is(o2)
    requires GetKey(path, n1, o1) == GetKey(path, n2, o2)
    ensures n1 == n2 && o1 == o2
  {
    var t1, t2 := n1 + ['/'] + Decimal(o1), n2 + ['/'] + Decimal(o2);
    assert GetKey(path, n1, o1) == path + "/" + t1 && GetKey(path, n2, o2) == path + "/" + t2;
    assert t1 == (path + "/" + t1)[|path| + 1..] && t2 == (path + "/" + t2)[|path| + 1..];
    PathSplits(n1, o1);
    PathSplits(n2, o2);
    DecimalRoundTrip(o1);
    DecimalRoundTrip(o2);
    assert [n1, Decimal(o1)] == [n2, Decimal(o2)];
  }

  lemma PathSplits(name: string, offset: nat)
    requires '/' !in name
    ensures Split(name + ['/'] + Decimal(offset), '/') == [name, Decimal(offset)]
  {
    SplitFirst(name, '/', Decimal(offset));
    DecimalClean(offset, '/');
    SplitNone(Decimal(offset), '/');
  }
}
