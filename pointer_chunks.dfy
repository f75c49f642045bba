/**
 * The webOS pointer bridge's delta chunker (`_chunk_pointer_delta`): a large
 * relative move is spread over at most MaxPointerChunks packets of about
 * MaxPointerDelta units each, because the TV's pointer socket turns non-linear
 * on large deltas.
 */
module PointerChunks {
  import opened Rounding

  const MaxPointerDelta: nat := 40
  const MaxPointerChunks: nat := 64

  /** One packet: an integer displacement on both axes. */
  datatype Delta = Delta(dx: int, dy: int)

  function Abs(n: int): nat {
    if n < 0 then -n else n
  }

  function MaxAxis(tdx: int, tdy: int): nat {
    if Abs(tdx) < Abs(tdy) then Abs(tdy) else Abs(tdx)
  }

  /** `math.ceil(m / d)` for a non-negative m, over exact arithmetic. */
  function CeilDiv(m: nat, d: nat): nat
    requires d > 0
  {
    (m + d - 1) / d
  }

  /**
   * The number of packets: the fewest packets of at most MaxPointerDelta units
   * that carry the larger axis, but never fewer than one nor more than
   * MaxPointerChunks.
   */
  function Steps(tdx: int, tdy: int): (s: nat)
    ensures 1 <= s <= MaxPointerChunks
    ensures s == 1 <==> MaxAxis(tdx, tdy) <= MaxPointerDelta
    ensures s < MaxPointerChunks ==> MaxAxis(tdx, tdy) <= MaxPointerDelta * s
    ensures s > 1 ==> MaxPointerDelta * (s - 1) < MaxAxis(tdx, tdy)
  {
    var m := MaxAxis(tdx, tdy);
    if m == 0 then 1
    else
      var c := CeilDiv(m, MaxPointerDelta);
      // The outer `max(1, ...)` of `max(1, min(MAX_POINTER_CHUNKS, ceil(max_axis / MAX_POINTER_DELTA)))`
      // never applies here: c >= 1 once m > 0.
      if c < MaxPointerChunks then c else MaxPointerChunks
  }

  /** Where the pointer should be after i of s packets: `round(t * i / s)`. */
  function Position(t: int, s: nat, i: nat): int
    requires s > 0
  {
    RoundHalfEven((t * i) as real / s as real)
  }

  /** The i-th packet before filtering: the difference of consecutive positions. */
  function Step(tdx: int, tdy: int, s: nat, i: nat): Delta
    requires s > 0 && i >= 1
  {
    Delta(Position(tdx, s, i) - Position(tdx, s, i - 1), Position(tdy, s, i) - Position(tdy, s, i - 1))
  }

  /** The packets of the first k loop iterations, zero packets left out. */
  function ChunksUpTo(tdx: int, tdy: int, s: nat, k: nat): seq<Delta>
    requires s > 0
  {
    if k == 0 then []
    else
      var c := Step(tdx, tdy, s, k);
      ChunksUpTo(tdx, tdy, s, k - 1) + (if c != Delta(0, 0) then [c] else [])
  }

  /** What `_chunk_pointer_delta` returns for the rounded target (tdx, tdy). */
  function Chunks(tdx: int, tdy: int): seq<Delta> {
    var s := Steps(tdx, tdy);
    if s == 1 then [Delta(tdx, tdy)]
    else
      var cs := ChunksUpTo(tdx, tdy, s, s);
      if cs == [] then [Delta(0, 0)] else cs
  }

  function SumDx(cs: seq<Delta>): int {
    if cs == [] then 0 else SumDx(cs[..|cs| - 1]) + cs[|cs| - 1].dx
  }

  function SumDy(cs: seq<Delta>): int {
    if cs == [] then 0 else SumDy(cs[..|cs| - 1]) + cs[|cs| - 1].dy
  }

  /** A packet component moves the same way as its axis' target, and is not too large. */
  predicate FitsAxis(d: int, t: int, s: nat) {
    && (t >= 0 ==> d >= 0)
    && (t <= 0 ==> d <= 0)
    && (Abs(d) - 1) * s <= Abs(t)
    && (Abs(t) <= MaxPointerDelta * s ==> Abs(d) <= MaxPointerDelta)
  }

  predicate Fits(c: Delta, tdx: int, tdy: int, s: nat) {
    FitsAxis(c.dx, tdx, s) && FitsAxis(c.dy, tdy, s)
  }

  lemma PositionEnds(t: int, s: nat)
    requires s > 0
    ensures Position(t, s, 0) == 0
    ensures Position(t, s, s) == t
  {
    assert (t * 0) as real / s as real == 0 as real;
    RoundOfInteger(0);
    assert (t * s) as real / s as real == t as real;
    RoundOfInteger(t);
  }

  /** Consecutive target positions are t / s apart. */
  lemma PositionGap(t: int, s: nat, i: nat)
    requires s > 0 && i >= 1
    ensures (t * i) as real / s as real == (t * (i - 1)) as real / s as real + t as real / s as real
  {
    var sr := s as real;
    assert (t * i) as real == (t * (i - 1)) as real + t as real;
    assert ((t * (i - 1)) as real + t as real) / sr == (t * (i - 1)) as real / sr + t as real / sr;
  }

  /** For s > 0: x <= n / s exactly when x * s <= n, and n / s <= x exactly when n <= x * s. */
  lemma Quotient(x: real, n: int, s: nat)
    requires s > 0
    ensures x <= n as real / s as real <==> x * s as real <= n as real
    ensures n as real / s as real <= x <==> n as real <= x * s as real
  {
    var q := n as real / s as real;
    assert q * s as real == n as real;
    if x <= q {
      assert x * s as real <= q * s as real;
    } else {
      assert x * s as real > q * s as real;
    }
    if q <= x {
      assert q * s as real <= x * s as real;
    } else {
      assert q * s as real > x * s as real;
    }
  }

  /** Rounding a and a + g, for a gap g >= 0, gives results between 0 and g + 1 apart. */
  lemma RoundGap(a: real, g: real, d: int)
    requires g >= 0.0 && d == RoundHalfEven(a + g) - RoundHalfEven(a)
    ensures 0 <= d && (d - 1) as real <= g
    ensures g <= MaxPointerDelta as real ==> d <= MaxPointerDelta
  {
    RoundMonotone(a, a + g);
    if g <= MaxPointerDelta as real {
      RoundSpread(a, a + g, MaxPointerDelta);
    }
  }

  /** The integer facts of FitsAxis, from their statements over the quotient |t| / s. */
  lemma FitsFromQuotient(d: int, t: int, s: nat)
    requires s > 0
    requires (t >= 0 ==> d >= 0) && (t <= 0 ==> d <= 0)
    requires (Abs(d) - 1) as real <= Abs(t) as real / s as real
    requires Abs(t) as real / s as real <= MaxPointerDelta as real ==> Abs(d) <= MaxPointerDelta
    ensures FitsAxis(d, t, s)
  {
    Quotient((Abs(d) - 1) as real, Abs(t), s);
    ProductAsReal(Abs(d) - 1, s);
    Quotient(MaxPointerDelta as real, Abs(t), s);
  }

  /** Rounding two points t / s apart gives a packet that fits axis t. */
  lemma RoundedGapFits(t: int, s: nat, a: real, b: real)
    requires s > 0 && b == a + t as real / s as real
    ensures FitsAxis(RoundHalfEven(b) - RoundHalfEven(a), t, s)
  {
    var g := Abs(t) as real / s as real;
    Quotient(0.0, Abs(t), s);
    var d := RoundHalfEven(b) - RoundHalfEven(a);
    if t >= 0 {
      assert b == a + g;
      RoundGap(a, g, d);
    } else {
      NegatedQuotient(Abs(t), s);
      assert t == 0 - Abs(t);
      assert a == b + g;
      RoundGap(b, g, -d);
    }
    FitsFromQuotient(d, t, s);
  }

  lemma NegatedQuotient(n: int, s: nat)
    requires s > 0
    ensures (-n) as real / s as real == -(n as real / s as real)
  {
  }

  lemma ProductAsReal(x: int, y: int)
    ensures (x * y) as real == x as real * y as real
  {
  }

  /** One loop iteration's packet component, on one axis. */
  lemma StepFits(t: int, s: nat, i: nat)
    requires s > 0 && i >= 1
    ensures FitsAxis(Position(t, s, i) - Position(t, s, i - 1), t, s)
  {
    PositionGap(t, s, i);
    RoundedGapFits(t, s, (t * (i - 1)) as real / s as real, (t * i) as real / s as real);
  }

  /** The loop after k iterations: its packets sum to position k, and there are at most k of them. */
  lemma {:induction false} ChunksUpToSums(tdx: int, tdy: int, s: nat, k: nat)
    requires s > 0
    ensures var cs := ChunksUpTo(tdx, tdy, s, k);
      SumDx(cs) == Position(tdx, s, k) && SumDy(cs) == Position(tdy, s, k) && |cs| <= k
  {
    if k == 0 {
      PositionEnds(tdx, s);
      PositionEnds(tdy, s);
    } else {
      ChunksUpToSums(tdx, tdy, s, k - 1);
      var prev := ChunksUpTo(tdx, tdy, s, k - 1);
      var c := Step(tdx, tdy, s, k);
      if c != Delta(0, 0) {
        assert (prev + [c])[..|prev|] == prev;
      } else {
        assert ChunksUpTo(tdx, tdy, s, k) == prev;
      }
    }
  }

  /** The loop after k iterations: none of its packets is empty and each fits. */
  lemma {:induction false} ChunksUpToFit(tdx: int, tdy: int, s: nat, k: nat)
    requires s > 0
    ensures forall c :: c in ChunksUpTo(tdx, tdy, s, k) ==> c != Delta(0, 0) && Fits(c, tdx, tdy, s)
  {
    if k > 0 {
      ChunksUpToFit(tdx, tdy, s, k - 1);
      StepFits(tdx, s, k);
      StepFits(tdy, s, k);
    }
  }

  /** The packets telescope: they add up exactly to the rounded target. */
  lemma ChunksSum(tdx: int, tdy: int)
    ensures SumDx(Chunks(tdx, tdy)) == tdx && SumDy(Chunks(tdx, tdy)) == tdy
  {
    var s := Steps(tdx, tdy);
    if s == 1 {
      assert SumDx([Delta(tdx, tdy)]) == SumDx([]) + tdx;
      assert SumDy([Delta(tdx, tdy)]) == SumDy([]) + tdy;
    } else {
      ChunksUpToSums(tdx, tdy, s, s);
      PositionEnds(tdx, s);
      PositionEnds(tdy, s);
    }
  }

  /**
   * At least one and at most Steps packets; a move within MaxPointerDelta on both
   * axes (including no move at all) is sent as it is, in one packet; a split move
   * has no empty packet; every packet moves the way the target does and stays
   * within MaxPointerDelta whenever the move needed no more than MaxPointerChunks
   * full packets.
   */
  lemma ChunksShape(tdx: int, tdy: int)
    ensures 1 <= |Chunks(tdx, tdy)| <= Steps(tdx, tdy)
    ensures MaxAxis(tdx, tdy) <= MaxPointerDelta ==> Chunks(tdx, tdy) == [Delta(tdx, tdy)]
    ensures Steps(tdx, tdy) > 1 ==> Delta(0, 0) !in Chunks(tdx, tdy)
    ensures forall c :: c in Chunks(tdx, tdy) ==> Fits(c, tdx, tdy, Steps(tdx, tdy))
  {
    var s := Steps(tdx, tdy);
    if s > 1 {
      ChunksUpToSums(tdx, tdy, s, s);
      ChunksUpToFit(tdx, tdy, s, s);
      PositionEnds(tdx, s);
      PositionEnds(tdy, s);
      assert tdx != 0 || tdy != 0;
      assert SumDx(ChunksUpTo(tdx, tdy, s, s)) != 0 || SumDy(ChunksUpTo(tdx, tdy, s, s)) != 0;
    }
  }

  /** `_chunk_pointer_delta`, as the loop the source runs. */
  method ChunkPointerDelta(tdx: int, tdy: int) returns (chunks: seq<Delta>)
    ensures chunks == Chunks(tdx, tdy)
  {
    var steps := Steps(tdx, tdy);
    if steps == 1 {
      return [Delta(tdx, tdy)];
    }
    chunks := [];
    var prevX, prevY := 0, 0;
    PositionEnds(tdx, steps);
    PositionEnds(tdy, steps);
    var i := 1;
    while i <= steps
      invariant 1 <= i <= steps + 1
      invariant prevX == Position(tdx, steps, i - 1) && prevY == Position(tdy, steps, i - 1)
      invariant chunks == ChunksUpTo(tdx, tdy, steps, i - 1)
    {
      var nextX := Position(tdx, steps, i);
      var nextY := Position(tdy, steps, i);
      var chunkX, chunkY := nextX - prevX, nextY - prevY;
      if chunkX != 0 || chunkY != 0 {
        chunks := chunks + [Delta(chunkX, chunkY)];
      }
      prevX, prevY := nextX, nextY;
      i := i + 1;
    }
    if chunks == [] {
      chunks := [Delta(0, 0)];
    }
  }
}
