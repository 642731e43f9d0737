/** pkg/math/segments.go: cutting a byte range into segments on the grid of cache blocks. */
module Segments {
  import opened Common
  import Int64

  datatype Segments = Segments(offset: int, step: int, size: int)

  /** A piece of one block: the block's start, where in the block the piece starts, and its length. */
  datatype Segment = Segment(index: int, offset: int, count: int) {
    function Start(): int { index + offset }
    function End(): int { index + offset + count }
  }

  function AlignDown(x: int, align: int): int
    requires align != 0
  {
    Int64.Div(x, align) * align
  }

  /** `x / align * align` never leaves int64, so the product needs no wrapping. */
  lemma AlignDownFits(x: int, align: int)
    requires Int64.Is(x) && align > 0
    ensures Int64.Is(AlignDown(x, align))
  {
    if x >= 0 {
      AlignDownBlock(x, align);
    } else {
      AlignDownBlock(-x, align);
      NegatedProduct((-x) / align, align);
    }
  }

  lemma NegatedProduct(a: int, b: int)
    ensures (-a) * b == -(a * b)
  {
  }

  /** On the offsets the callers use, this is the start of the enclosing block. */
  lemma AlignDownBlock(x: int, align: int)
    requires x >= 0 && align > 0
    ensures AlignDown(x, align) == x - x % align
    ensures 0 <= AlignDown(x, align) <= x < AlignDown(x, align) + align
    ensures AlignDown(x, align) % align == 0
  {
    var q := x / align;
    assert x == q * align + x % align;
    assert AlignDown(x, align) == q * align;
    MultipleModulo(q, align);
  }

  lemma MultipleModulo(q: int, d: int)
    requires d > 0
    ensures (q * d) % d == 0
  {
    var m := q * d;
    assert m == m / d * d + m % d;
    SmallMultiple(q - m / d, d);
  }

  lemma SmallMultiple(k: int, d: int)
    requires d > 0 && 0 <= k * d < d
    ensures k == 0
  {
  }

  /** Truncating division rounds negative offsets up: aligning goes down exactly on the offsets that
      are non-negative or already aligned. */
  lemma AlignDownGoesDown(x: int, align: int)
    requires align > 0
    ensures AlignDown(x, align) <= x <==> x >= 0 || x % align == 0
  {
    if x >= 0 {
      AlignDownBlock(x, align);
    } else {
      var y := -x;
      assert y / align * align == y - y % align;
      assert AlignDown(x, align) == -(y / align * align);
      NegatedRemainder(y, align);
    }
  }

  /** What it does to negative offsets. */
  lemma AlignDownNegative(x: int, align: int)
    requires x < 0 && align > 0
    ensures x <= AlignDown(x, align) <= 0 && (AlignDown(x, align) == x <==> x % align == 0)
  {
    AlignDownBlock(-x, align);
    NegatedProduct((-x) / align, align);
    AlignDownGoesDown(x, align);
  }

  lemma NegatedRemainder(y: int, d: int)
    requires d > 0
    ensures y % d == 0 <==> (-y) % d == 0
  {
    if y % d == 0 {
      assert y == y / d * d;
      assert -y == (-(y / d)) * d;
      MultipleModulo(-(y / d), d);
    }
    if (-y) % d == 0 {
      assert -y == (-y) / d * d;
      assert y == (-((-y) / d)) * d;
      MultipleModulo(-((-y) / d), d);
    }
  }

  /** A multiple of `d` in the half-open block starting at `b` is `b` itself. */
  lemma SameBlock(a: int, b: int, d: int)
    requires d > 0 && a % d == 0 && b % d == 0 && b <= a < b + d
    ensures a == b
  {
    assert a == a / d * d && b == b / d * d;
    assert (a / d - b / d) * d == a - b;
    SmallMultiple(a / d - b / d, d);
  }

  function NewSegments(offset: int, step: int, count: int, size: int): (r: Result<Segments>)
    requires Int64.Is(offset) && Int64.Is(step) && Int64.Is(count) && Int64.Is(size)
    ensures r.Ok? <==> step <= 0 || Int64.IsPow2(step)
    ensures r.Ok? && Int64.Is(offset + count) ==> r.value.size <= size && r.value.size <= offset + count
  {
    Int64.PowerOfTwoGuard(step);
    if Int64.And(step, Int64.Wrap(step - 1)) > 0 then Err
    else Ok(Segments(offset, step, Min(Int64.Wrap(offset + count), size)))
  }

  // ---------------------------------------------------------------- the partition

  ghost predicate InBlock(s: Segment, step: int)
    requires step > 0
  {
    s.index % step == 0 && 0 <= s.offset && 0 < s.count && s.offset + s.count <= step
  }

  /** `segs` cuts `[lo, hi)` at every block boundary inside it, and nowhere else. */
  ghost predicate IsPartition(segs: seq<Segment>, lo: int, hi: int, step: int)
    requires step > 0
  {
    && (hi <= lo ==> segs == [])
    && (lo < hi ==> |segs| > 0 && segs[0].Start() == lo && segs[|segs| - 1].End() == hi)
    && (forall k :: 0 <= k < |segs| ==> InBlock(segs[k], step))
    && (forall k :: 0 < k < |segs| ==> segs[k].offset == 0 && segs[k - 1].End() == segs[k].Start())
  }

  /** Every range has its partition. */
  lemma {:induction false} PartitionExists(lo: int, hi: int, step: int) returns (segs: seq<Segment>)
    requires step > 0 && 0 <= lo
    ensures IsPartition(segs, lo, hi, step)
    decreases hi - lo
  {
    if hi <= lo {
      segs := [];
    } else {
      AlignDownBlock(lo, step);
      var b := AlignDown(lo, step);
      var mid := Min(b + step, hi);
      if mid == b + step { MultipleModuloStep(b, step); }
      var rest := PartitionExists(mid, hi, step);
      segs := [Segment(b, lo - b, mid - lo)] + rest;
      if rest != [] { StartsOnBlock(rest[0], mid, step); }
    }
  }

  /** A segment that starts on a block boundary starts its block. */
  lemma StartsOnBlock(s: Segment, at: int, step: int)
    requires step > 0 && InBlock(s, step) && s.Start() == at && at % step == 0
    ensures s.offset == 0
  {
    SameBlock(at, s.index, step);
  }

  function Total(segs: seq<Segment>): int {
    if segs == [] then 0 else segs[0].count + Total(segs[1..])
  }

  lemma {:induction false} Ordered(segs: seq<Segment>, lo: int, hi: int, step: int, j: nat, k: nat)
    requires step > 0 && IsPartition(segs, lo, hi, step) && j < k < |segs|
    ensures segs[j].End() <= segs[k].Start()
    decreases k - j
  {
    if j + 1 < k {
      Ordered(segs, lo, hi, step, j + 1, k);
      assert InBlock(segs[j + 1], step);
    }
  }

  /** Where each segment lies: its block cut to the range, seen from the block's own start. */
  lemma SegmentShape(segs: seq<Segment>, lo: int, hi: int, step: int, k: nat)
    requires step > 0 && IsPartition(segs, lo, hi, step) && k < |segs|
    ensures segs[k].Start() == Max(segs[k].index, lo)
    ensures segs[k].End() == Min(segs[k].index + step, hi)
    ensures lo <= segs[k].Start() < segs[k].End() <= hi
  {
    var s := segs[k];
    assert InBlock(s, step);
    if k > 0 {
      Ordered(segs, lo, hi, step, 0, k);
      assert InBlock(segs[0], step);
    }
    if k + 1 < |segs| {
      var t := segs[k + 1];
      assert InBlock(t, step) && t.index == s.End();
      MultipleModuloStep(s.index, step);
      SameBlock(t.index, s.index + step, step) by {
        if t.index < s.index + step {
          SameBlock(t.index, s.index, step);
          assert false;
        }
      }
      if k + 1 < |segs| - 1 { Ordered(segs, lo, hi, step, k + 1, |segs| - 1); }
      assert InBlock(segs[|segs| - 1], step);
    }
  }

  lemma MultipleModuloStep(a: int, d: int)
    requires d > 0 && a % d == 0
    ensures (a + d) % d == 0
  {
    assert a == a / d * d;
    assert a + d == (a / d + 1) * d;
    MultipleModulo(a / d + 1, d);
  }

  /** The first segment is fixed by the range, and what follows partitions the rest. */
  lemma FirstSegment(segs: seq<Segment>, lo: int, hi: int, step: int)
    requires step > 0 && 0 <= lo < hi && IsPartition(segs, lo, hi, step)
    ensures var b := AlignDown(lo, step);
            && segs[0] == Segment(b, lo - b, Min(b + step, hi) - lo)
            && IsPartition(segs[1..], Min(b + step, hi), hi, step)
  {
    var b := AlignDown(lo, step);
    AlignDownBlock(lo, step);
    assert InBlock(segs[0], step);
    SegmentShape(segs, lo, hi, step, 0);
    var i := segs[0].index;
    if i < b { MultipleGap(i, b, step); } else if b < i { MultipleGap(b, i, step); }
    var rest := segs[1..];
    if rest != [] {
      assert rest[0] == segs[1] && rest[|rest| - 1] == segs[|segs| - 1];
      SegmentShape(segs, lo, hi, step, 1);
    }
  }

  lemma MultipleGap(a: int, b: int, d: int)
    requires d > 0 && a % d == 0 && b % d == 0 && a < b
    ensures a + d <= b
  {
    if b < a + d { SameBlock(b, a, d); }
  }

  /** The specification has one solution, so a loop that meets it emits exactly these segments. */
  lemma {:induction false} PartitionUnique(s1: seq<Segment>, s2: seq<Segment>, lo: int, hi: int, step: int)
    requires step > 0 && 0 <= lo
    requires IsPartition(s1, lo, hi, step) && IsPartition(s2, lo, hi, step)
    ensures s1 == s2
    decreases |s1|
  {
    if lo < hi {
      FirstSegment(s1, lo, hi, step);
      FirstSegment(s2, lo, hi, step);
      AlignDownBlock(lo, step);
      PartitionUnique(s1[1..], s2[1..], Min(AlignDown(lo, step) + step, hi), hi, step);
      assert s1 == [s1[0]] + s1[1..] && s2 == [s2[0]] + s2[1..];
    }
  }

  lemma {:induction false} PartitionTotal(segs: seq<Segment>, lo: int, hi: int, step: int)
    requires step > 0 && 0 <= lo && IsPartition(segs, lo, hi, step)
    ensures Total(segs) == Max(hi - lo, 0)
    decreases |segs|
  {
    if lo < hi {
      FirstSegment(segs, lo, hi, step);
      AlignDownBlock(lo, step);
      PartitionTotal(segs[1..], Min(AlignDown(lo, step) + step, hi), hi, step);
    }
  }

  ghost predicate Holds(s: Segment, p: int) { s.Start() <= p < s.End() }

  lemma {:induction false} SomeSegmentHolds(segs: seq<Segment>, lo: int, hi: int, step: int, p: int) returns (k: nat)
    requires step > 0 && 0 <= lo <= p < hi && IsPartition(segs, lo, hi, step)
    ensures k < |segs| && Holds(segs[k], p)
    decreases |segs|
  {
    FirstSegment(segs, lo, hi, step);
    AlignDownBlock(lo, step);
    if p < segs[0].End() {
      k := 0;
    } else {
      var k' := SomeSegmentHolds(segs[1..], Min(AlignDown(lo, step) + step, hi), hi, step, p);
      k := k' + 1;
    }
  }

  /** The segments cover the range and nothing else, and no byte twice. */
  lemma PartitionCovers(segs: seq<Segment>, lo: int, hi: int, step: int, p: int)
    requires step > 0 && 0 <= lo && IsPartition(segs, lo, hi, step)
    ensures lo <= p < hi <==> exists k :: 0 <= k < |segs| && Holds(segs[k], p)
    ensures forall j, k :: 0 <= j < |segs| && 0 <= k < |segs| && Holds(segs[j], p) && Holds(segs[k], p) ==> j == k
  {
    if lo <= p < hi {
      var k := SomeSegmentHolds(segs, lo, hi, step, p);
    }
    forall k | 0 <= k < |segs| && Holds(segs[k], p) ensures lo <= p < hi {
      SegmentShape(segs, lo, hi, step, k);
    }
    forall j, k | 0 <= j < |segs| && 0 <= k < |segs| && Holds(segs[j], p) && Holds(segs[k], p) ensures j == k {
      if j < k { Ordered(segs, lo, hi, step, j, k); }
      if k < j { Ordered(segs, lo, hi, step, k, j); }
    }
  }

  // ---------------------------------------------------------------- the loop and its int64 counter

  /** No iteration is needed, or the end leaves room for the counter's last step. */
  predicate CounterFits(r: Segments)
    requires r.step > 0
  {
    AlignDown(r.offset, r.step) >= r.size || r.size <= Int64.TWO63 - r.step
  }

  method All(r: Segments) returns (segs: seq<Segment>)
    requires Int64.Is(r.offset) && Int64.Is(r.step) && Int64.Is(r.size)
    requires 0 <= r.offset && 0 < r.step && CounterFits(r)
    ensures IsPartition(segs, r.offset, r.size, r.step)
  {
    segs := [];
    AlignDownBlock(r.offset, r.step);
    var i := AlignDown(r.offset, r.step);
    while i < r.size
      invariant 0 <= i && Int64.Is(i) && i % r.step == 0
      invariant i < r.size ==> r.size <= Int64.TWO63 - r.step
      invariant IsPartition(segs, r.offset, Min(i, r.size), r.step)
      decreases r.size - i
    {
      var absOffset := Max(i, r.offset);
      var count := Int64.Wrap(Min(Int64.Wrap(i + r.step), r.size) - absOffset);
      MultipleModuloStep(i, r.step);
      if count > 0 {
        segs := segs + [Segment(i, absOffset - i, count)];
      }
      i := Int64.Wrap(i + r.step);
    }
  }

  /** The counter after `n` turns of the loop, wrapping as int64 does. */
  function Counter(r: Segments, n: nat): (i: int)
    requires r.step > 0
  {
    if n == 0 then AlignDown(r.offset, r.step) else Int64.Wrap(Counter(r, n - 1) + r.step)
  }

  /** The loop leaves after `n` turns, none of which overflowed. */
  ghost predicate LeavesCleanly(r: Segments, n: nat)
    requires r.step > 0
  {
    && Counter(r, n) >= r.size
    && forall m: nat :: m < n ==> Int64.Is(Counter(r, m) + r.step)
  }

  ghost predicate Leaves(r: Segments, n: nat)
    requires r.step > 0
  {
    Counter(r, n) >= r.size
  }

  lemma {:induction false} CounterAligned(r: Segments, n: nat)
    requires 0 <= r.offset && Int64.Is(r.offset) && 0 < r.step < Int64.TWO63 && Int64.IsPow2(r.step)
    ensures Int64.Is(Counter(r, n)) && Counter(r, n) % r.step == 0
  {
    AlignDownBlock(r.offset, r.step);
    if n > 0 {
      CounterAligned(r, n - 1);
      WrapAligned(Counter(r, n - 1) + r.step, r.step) by { MultipleModuloStep(Counter(r, n - 1), r.step); }
    }
  }

  lemma WrapAligned(x: int, step: int)
    requires 0 < step < Int64.TWO63 && Int64.IsPow2(step) && x % step == 0
    requires -Int64.TWO63 <= x < 2 * Int64.TWO63
    ensures Int64.Wrap(x) % step == 0
  {
    if x >= Int64.TWO63 {
      var q := Int64.Pow2Divides(step);
      assert x == x / step * step;
      assert Int64.Wrap(x) == x - Int64.TWO64;
      assert x - Int64.TWO64 == (x / step - 2 * q) * step;
      MultipleModulo(x / step - 2 * q, step);
    }
  }

  lemma {:induction false} CounterClimbs(r: Segments, n: nat)
    requires 0 <= r.offset && Int64.Is(r.offset) && 0 < r.step
    requires forall m: nat :: m < n ==> Int64.Is(Counter(r, m) + r.step)
    ensures Counter(r, n) == AlignDown(r.offset, r.step) + n * r.step
  {
    if n > 0 {
      CounterClimbs(r, n - 1);
      assert n * r.step == (n - 1) * r.step + r.step;
    }
  }

  /** With room at the end, the loop leaves after the expected number of turns. */
  lemma {:induction false} ClimbToEnd(r: Segments, n: nat) returns (last: nat)
    requires 0 <= r.offset && Int64.Is(r.offset) && 0 < r.step && r.size <= Int64.TWO63 - r.step
    requires forall m: nat :: m < n ==> Int64.Is(Counter(r, m) + r.step)
    requires Int64.Is(Counter(r, n)) && 0 <= Counter(r, n)
    ensures LeavesCleanly(r, last)
    decreases Max(r.size - Counter(r, n), 0)
  {
    if Counter(r, n) >= r.size {
      last := n;
    } else {
      assert Counter(r, n + 1) == Counter(r, n) + r.step;
      last := ClimbToEnd(r, n + 1);
    }
  }

  /** The exact bound: the loop ends if and only if the counter never has to pass 2^63 - step, and
      when it ends it has not overflowed. Past the bound every counter value stays below the end. */
  lemma LoopEndsExactly(r: Segments)
    requires Int64.Is(r.offset) && Int64.Is(r.step) && Int64.Is(r.size)
    requires 0 <= r.offset && 0 < r.step && Int64.IsPow2(r.step)
    ensures (exists n: nat :: Leaves(r, n)) <==> CounterFits(r)
    ensures (exists n: nat :: LeavesCleanly(r, n)) <==> CounterFits(r)
  {
    AlignDownBlock(r.offset, r.step);
    if AlignDown(r.offset, r.step) >= r.size {
      assert LeavesCleanly(r, 0) && Leaves(r, 0);
    } else if r.size <= Int64.TWO63 - r.step {
      var n := ClimbToEnd(r, 0);
      assert Leaves(r, n);
    } else {
      forall n: nat ensures !Leaves(r, n) && !LeavesCleanly(r, n) {
        CounterAligned(r, n);
        var q := Int64.Pow2Divides(r.step);
        MultipleModulo(q, r.step);
        MultipleGap(Counter(r, n), Int64.TWO63, r.step);
      }
    }
  }

  // ---------------------------------------------------------------- prefetch and read agree

  /** What a read at `o` asks the cache for: the enclosing block, cut to the file. */
  predicate AsReadWould(s: Segment, size: int, block: int, o: int)
    requires block > 0
  {
    s.index == AlignDown(o, block) && s.count == Min(block, size - AlignDown(o, block))
  }

  /** Prefetch sends (index, count) and forgets the offset in the block. That is what a read would
      ask for, for every byte of every segment, exactly when the range starts on a block boundary
      and ends on one or at the end of the file. */
  lemma PrefetchAgreesWithRead(segs: seq<Segment>, lo: int, hi: int, size: int, block: int)
    requires block > 0 && 0 <= lo < hi <= size && IsPartition(segs, lo, hi, block)
    ensures (forall k, o :: 0 <= k < |segs| && Holds(segs[k], o) ==> AsReadWould(segs[k], size, block, o))
            <==> lo % block == 0 && (hi % block == 0 || hi == size)
  {
    if lo % block == 0 && (hi % block == 0 || hi == size) {
      forall k, o | 0 <= k < |segs| && Holds(segs[k], o) ensures AsReadWould(segs[k], size, block, o) {
        AgreeingSegment(segs, lo, hi, size, block, k, o);
      }
    }
    if forall k, o :: 0 <= k < |segs| && Holds(segs[k], o) ==> AsReadWould(segs[k], size, block, o) {
      var last := |segs| - 1;
      SegmentShape(segs, lo, hi, block, 0);
      SegmentShape(segs, lo, hi, block, last);
      assert Holds(segs[0], lo) && Holds(segs[last], hi - 1);
      AlignDownBlock(lo, block);
      AlignDownBlock(hi - 1, block);
      assert AsReadWould(segs[0], size, block, lo);
      assert AsReadWould(segs[last], size, block, hi - 1);
      MultipleModuloStep(segs[last].index, block);
    }
  }

  lemma AgreeingSegment(segs: seq<Segment>, lo: int, hi: int, size: int, block: int, k: nat, o: int)
    requires block > 0 && 0 <= lo < hi <= size && IsPartition(segs, lo, hi, block)
    requires lo % block == 0 && (hi % block == 0 || hi == size)
    requires k < |segs| && Holds(segs[k], o)
    ensures AsReadWould(segs[k], size, block, o)
  {
    var s := segs[k];
    SegmentShape(segs, lo, hi, block, k);
    AlignDownBlock(o, block);
    assert InBlock(s, block);
    if s.index < AlignDown(o, block) { MultipleGap(s.index, AlignDown(o, block), block); }
    if AlignDown(o, block) < s.index { MultipleGap(AlignDown(o, block), s.index, block); }
    if s.index < lo { MultipleGap(s.index, lo, block); }
    if hi < size && hi < s.index + block { MultipleGap(s.index, hi, block); }
  }
}
