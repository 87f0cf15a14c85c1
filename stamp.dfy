/** The text fallback for a missing title logo: "VI" drawn many times around
    (280, 380), once per even offset `(ox, oy)` in `range(-8, 9, 2)` squared
    with `|ox| + |oy| > 2`, which gives a thick outline. The offsets are
    enumerated as the two nested loops visit them, `ox` outer and `oy` inner. */
module TitleStamp {
  import opened Drawing

  const StampX := 280
  const StampY := 380
  /** Bounds of `range(-8, 9, 2)`. */
  const Lo := -8
  const Hi := 8
  /** Positions per side of that range. */
  const Side := 9

  function Abs(x: int): nat {
    if x < 0 then -x else x
  }

  /** The even offsets the two loops range over. */
  predicate OnGrid(o: (int, int)) {
    Lo <= o.0 <= Hi && Lo <= o.1 <= Hi && o.0 % 2 == 0 && o.1 % 2 == 0
  }

  /** The offsets the inner test keeps. */
  predicate IsStampOffset(o: (int, int)) {
    OnGrid(o) && Abs(o.0) + Abs(o.1) > 2
  }

  /** The `k`-th offset the loops visit: `ox` takes the outer step, `oy` the inner. */
  function Pos(k: int): (int, int) {
    (Lo + 2 * (k / Side), Lo + 2 * (k % Side))
  }

  /** Where in the visiting order a grid offset comes. */
  function Index(o: (int, int)): int {
    Side * ((o.0 - Lo) / 2) + (o.1 - Lo) / 2
  }

  /** What the `abs(ox) + abs(oy) > 2` test keeps of one visited offset. */
  function Kept(o: (int, int)): seq<(int, int)> {
    if Abs(o.0) + Abs(o.1) > 2 then [o] else []
  }

  /** Offsets drawn after the loops have visited `k` positions. */
  function VisitedUpTo(k: int): seq<(int, int)>
    decreases k
  {
    if k <= 0 then [] else VisitedUpTo(k - 1) + Kept(Pos(k - 1))
  }

  /** Every offset the loops draw, in drawing order. */
  function StampOffsets(): seq<(int, int)> {
    VisitedUpTo(Side * Side)
  }

  function StampOp(o: (int, int), font: Font): Op {
    Text(StampX + o.0, StampY + o.1, "VI", font, White, LeftAscender)
  }

  /** One text call per offset, in order. */
  function StampOps(offsets: seq<(int, int)>, font: Font): (ops: seq<Op>)
    ensures |ops| == |offsets|
    ensures forall k :: 0 <= k < |offsets| ==> ops[k] == StampOp(offsets[k], font)
  {
    seq(|offsets|, k requires 0 <= k < |offsets| => StampOp(offsets[k], font))
  }

  lemma StampOpsSnoc(offsets: seq<(int, int)>, o: (int, int), font: Font)
    ensures StampOps(offsets + [o], font) == StampOps(offsets, font) + [StampOp(o, font)]
  {
    assert StampOps(offsets + [o], font)[|offsets|] == StampOp(o, font);
  }

  // ---------------------------------------------------------------------------
  // What the offsets are.

  /** Lexicographic order on offsets. */
  predicate Before(a: (int, int), b: (int, int)) {
    a.0 < b.0 || (a.0 == b.0 && a.1 < b.1)
  }

  predicate Sorted(s: seq<(int, int)>) {
    forall m, n :: 0 <= m < n < |s| ==> Before(s[m], s[n])
  }

  lemma PosOf(i: int, j: int)
    requires 0 <= j < Side
    ensures Pos(Side * i + j) == (Lo + 2 * i, Lo + 2 * j)
  {
    assert (Side * i + j) / Side == i;
  }

  /** `Pos` and `Index` are inverse bijections between `[0, 81)` and the grid. */
  lemma IndexPos(k: int)
    requires 0 <= k < Side * Side
    ensures OnGrid(Pos(k)) && Index(Pos(k)) == k
  {
  }

  lemma PosIndex(o: (int, int))
    requires OnGrid(o)
    ensures 0 <= Index(o) < Side * Side && Pos(Index(o)) == o
  {
    PosOf((o.0 - Lo) / 2, (o.1 - Lo) / 2);
  }

  /** On the grid the visiting order is the lexicographic order. */
  lemma IndexOrder(a: (int, int), b: (int, int))
    requires OnGrid(a) && OnGrid(b)
    ensures Before(a, b) <==> Index(a) < Index(b)
  {
  }

  lemma KeptAt(k: int, o: (int, int))
    requires 0 <= k < Side * Side
    ensures o in Kept(Pos(k)) <==> IsStampOffset(o) && Index(o) == k
  {
    IndexPos(k);
    if OnGrid(o) {
      PosIndex(o);
    }
  }

  /** After `k` positions the loops have drawn exactly the kept offsets visited so far. */
  lemma {:induction false} VisitedMember(k: int, o: (int, int))
    requires 0 <= k <= Side * Side
    ensures o in VisitedUpTo(k) <==> IsStampOffset(o) && Index(o) < k
    decreases k
  {
    if k > 0 {
      VisitedMember(k - 1, o);
      KeptAt(k - 1, o);
      var a, b := VisitedUpTo(k - 1), Kept(Pos(k - 1));
      assert VisitedUpTo(k) == a + b;
      assert o in a + b <==> o in a || o in b;
    }
  }

  /** ... and in strictly increasing visiting order. */
  lemma {:induction false} VisitedSorted(k: int)
    requires 0 <= k <= Side * Side
    ensures forall m, n :: 0 <= m < n < |VisitedUpTo(k)| ==>
      Index(VisitedUpTo(k)[m]) < Index(VisitedUpTo(k)[n])
    decreases k
  {
    if k > 0 {
      VisitedSorted(k - 1);
      var a, b := VisitedUpTo(k - 1), Kept(Pos(k - 1));
      assert VisitedUpTo(k) == a + b;
      forall m, n | 0 <= m < n < |a + b|
        ensures Index((a + b)[m]) < Index((a + b)[n])
      {
        if n >= |a| {
          assert (a + b)[m] in a;
          assert (a + b)[n] in b;
          VisitedMember(k - 1, (a + b)[m]);
          KeptAt(k - 1, (a + b)[n]);
        }
      }
    }
  }

  /** The loops draw exactly the even offsets in [-8, 8] squared outside the
      centre diamond, each once, in increasing lexicographic order. */
  lemma StampOffsetsExactly()
    ensures forall o :: o in StampOffsets() <==> IsStampOffset(o)
    ensures Sorted(StampOffsets())
  {
    var s := StampOffsets();
    forall o: (int, int)
      ensures o in s <==> IsStampOffset(o)
    {
      VisitedMember(Side * Side, o);
      if OnGrid(o) {
        PosIndex(o);
      }
    }
    VisitedSorted(Side * Side);
    forall m, n | 0 <= m < n < |s|
      ensures Before(s[m], s[n])
    {
      VisitedMember(Side * Side, s[m]);
      VisitedMember(Side * Side, s[n]);
      IndexOrder(s[m], s[n]);
    }
  }

  /** The set of offsets is unchanged when every offset is negated. */
  lemma StampOffsetsSymmetric(o: (int, int))
    ensures o in StampOffsets() <==> (-o.0, -o.1) in StampOffsets()
  {
    StampOffsetsExactly();
  }

  /** Number of the five centre positions, at places 31, 39, 40, 41 and 49 of
      the visiting order, that come before place `k`. */
  function CentreBelow(k: int): int {
    (if 31 < k then 1 else 0) + (if 39 < k then 1 else 0) + (if 40 < k then 1 else 0)
    + (if 41 < k then 1 else 0) + (if 49 < k then 1 else 0)
  }

  lemma KeptLength(k: int)
    requires 0 <= k < Side * Side
    ensures |Kept(Pos(k))| == (if k in {31, 39, 40, 41, 49} then 0 else 1)
  {
    PosOf(k / Side, k % Side);
  }

  /** Every visited position but the five centre ones adds one offset. */
  lemma {:induction false} VisitedLength(k: int)
    requires 0 <= k <= Side * Side
    ensures |VisitedUpTo(k)| == k - CentreBelow(k)
    decreases k
  {
    if k > 0 {
      VisitedLength(k - 1);
      KeptLength(k - 1);
    }
  }

  /** There are 76 of them: 81 even points less the centre and its four
      neighbours at distance 2. */
  lemma StampOffsetsCount()
    ensures |StampOffsets()| == 76
  {
    VisitedLength(Side * Side);
  }

  /** The stamp calls: every one is a white "VI" in the title font whose
      position lies at a stamp offset from (280, 380), so within 8 pixels of it
      on each axis and never at the centre, and every stamp offset gets one. */
  lemma StampCalls(font: Font)
    ensures forall op :: op in StampOps(StampOffsets(), font) ==>
      op.Text? && op.text == "VI" && op.font == font && op.ink == White && op.anchor == LeftAscender
      && IsStampOffset((op.x - StampX, op.y - StampY))
      && 272 <= op.x <= 288 && 372 <= op.y <= 388 && (op.x, op.y) != (StampX, StampY)
    ensures forall o :: IsStampOffset(o) ==> StampOp(o, font) in StampOps(StampOffsets(), font)
  {
    var s := StampOffsets();
    var ops := StampOps(s, font);
    StampOffsetsExactly();
    forall op | op in ops
      ensures op.Text? && op.text == "VI" && op.font == font && op.ink == White && op.anchor == LeftAscender
      && IsStampOffset((op.x - StampX, op.y - StampY))
      && 272 <= op.x <= 288 && 372 <= op.y <= 388 && (op.x, op.y) != (StampX, StampY)
    {
      var k :| 0 <= k < |ops| && ops[k] == op;
      assert s[k] in s;
      assert (op.x - StampX, op.y - StampY) == s[k];
    }
    forall o | IsStampOffset(o)
      ensures StampOp(o, font) in ops
    {
      var k :| 0 <= k < |s| && s[k] == o;
      assert ops[k] == StampOp(o, font);
    }
  }

  lemma HeadIn(s: seq<(int, int)>)
    ensures s != [] ==> s[0] in s
  {
  }

  /** The head of a sorted sequence comes before each of its other elements. */
  lemma SortedHead(s: seq<(int, int)>, x: (int, int))
    requires Sorted(s)
    ensures x in s ==> x == s[0] || Before(s[0], x)
  {
    if x in s {
      var k :| 0 <= k < |s| && s[k] == x;
      if k > 0 {
        assert Before(s[0], s[k]);
      }
    }
  }

  /** A strictly sorted sequence is determined by its elements. */
  lemma {:induction false} SortedUnique(a: seq<(int, int)>, b: seq<(int, int)>)
    requires Sorted(a) && Sorted(b)
    requires forall o :: o in a <==> o in b
    ensures a == b
    decreases |a|
  {
    HeadIn(a);
    HeadIn(b);
    if a != [] && b != [] {
      SortedHead(a, b[0]);
      SortedHead(b, a[0]);
      assert a[0] == b[0];
      forall o | true
        ensures o in a[1..] <==> o in b[1..]
      {
        if o in a[1..] {
          var n :| 1 <= n < |a| && a[n] == o;
          assert Before(a[0], o) && o in a && o in b;
          var k :| 0 <= k < |b| && b[k] == o;
          assert b[k] == b[1..][k - 1];
        }
        if o in b[1..] {
          var n :| 1 <= n < |b| && b[n] == o;
          assert Before(b[0], o) && o in b && o in a;
          var k :| 0 <= k < |a| && a[k] == o;
          assert a[k] == a[1..][k - 1];
        }
      }
      SortedUnique(a[1..], b[1..]);
      assert a == [a[0]] + a[1..];
      assert b == [b[0]] + b[1..];
    } else if a != [] || b != [] {
      assert false;
    }
  }

  /** The nested `for offset_x` / `for offset_y` loops: one "VI" per kept
      offset, in the order the loops visit them. */
  method DrawStamp(canvas: Canvas, font: Font)
    modifies canvas
    ensures canvas.ops == old(canvas.ops) + StampOps(StampOffsets(), font)
  {
    ghost var drawn: seq<(int, int)> := [];
    var ox := Lo;
    while ox < Hi + 1
      invariant Lo <= ox <= Hi + 2 && ox % 2 == 0
      invariant Sorted(drawn)
      invariant forall o :: o in drawn <==> IsStampOffset(o) && o.0 < ox
      invariant canvas.ops == old(canvas.ops) + StampOps(drawn, font)
    {
      var oy := Lo;
      while oy < Hi + 1
        invariant Lo <= oy <= Hi + 2 && oy % 2 == 0
        invariant Sorted(drawn)
        invariant forall o :: o in drawn <==> IsStampOffset(o) && Before(o, (ox, oy))
        invariant canvas.ops == old(canvas.ops) + StampOps(drawn, font)
      {
        if Abs(ox) + Abs(oy) > 2 {
          canvas.Draw(StampOp((ox, oy), font));
          StampOpsSnoc(drawn, (ox, oy), font);
          drawn := drawn + [(ox, oy)];
        }
        oy := oy + 2;
      }
      ox := ox + 2;
    }
    StampOffsetsExactly();
    SortedUnique(drawn, StampOffsets());
  }
}
