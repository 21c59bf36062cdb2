/** What an honest spin of the wheel returns: every wheel pays back more than is staked on it. */
module WheelOdds {
  import opened Arithmetic
  import opened MinesGrid
  import opened Rng
  import opened TableGames

  /** What an honest spin pays on a unit stake, draw by draw, in hundredths. */
  function SpinPays(risk: Risk): nat -> int {
    (v: nat) => if v < DRAWS then ResolveWheel(risk, v, Honest).multiplier else 0
  }

  function SpinSegment(risk: Risk): nat -> nat {
    (v: nat) => if v < DRAWS then ResolveWheel(risk, v, Honest).segment else 0
  }

  function SegmentPays(risk: Risk): nat -> int {
    (k: nat) => if k < 12 then WheelSegments(risk)[k] else 0
  }

  /** The twelve segments of a wheel together, in hundredths. */
  function WheelTotal(risk: Risk): int {
    match risk
    case Low => 1250
    case Middle => 1950
    case High => 6500
  }

  lemma SpinPaysSegment(risk: Risk, v: Draw)
    ensures var r := ResolveWheel(risk, v, Honest);
            r.segment < 12 && r.multiplier == WheelSegments(risk)[r.segment]
  {
    hide WheelSegments;
  }

  lemma EachSegment(risk: Risk, k: nat)
    requires k < 12
    ensures DRAWS / 12 <= |DrawsTo(DRAWS, SpinSegment(risk), k)| <= DRAWS / 12 + 1
  {
    WheelIsEven(risk, k);
    assert DrawsTo(DRAWS, SpinSegment(risk), k) == (set v: nat | v < DRAWS && ResolveWheel(risk, v, Honest).segment == k);
    hide ResolveWheel;
  }

  /** What the first m segments come to. */
  function FirstSegments(risk: Risk, m: nat): int
    requires m <= 12
  {
    if m == 0 then 0 else FirstSegments(risk, m - 1) + WheelSegments(risk)[m - 1]
  }

  lemma SegmentsTotal(risk: Risk)
    ensures FirstSegments(risk, 12) == WheelTotal(risk)
  {
    var t := WheelSegments(risk);
    assert FirstSegments(risk, 3) == t[0] + t[1] + t[2];
    assert FirstSegments(risk, 6) == FirstSegments(risk, 3) + t[3] + t[4] + t[5];
    assert FirstSegments(risk, 9) == FirstSegments(risk, 6) + t[6] + t[7] + t[8];
    assert FirstSegments(risk, 12) == FirstSegments(risk, 9) + t[9] + t[10] + t[11];
  }

  lemma {:induction false} WeightedSegments(risk: Risk, m: nat)
    requires m <= 12
    ensures DRAWS / 12 * FirstSegments(risk, m) <= Weighted(DRAWS, SpinSegment(risk), m, SegmentPays(risk))
            <= (DRAWS / 12 + 1) * FirstSegments(risk, m)
  {
    if m > 0 {
      WeightedSegments(risk, m - 1);
      EachSegment(risk, m - 1);
      SegmentIsNotNegative(risk, m - 1);
      MulMonotone(DRAWS / 12, |DrawsTo(DRAWS, SpinSegment(risk), m - 1)|, WheelSegments(risk)[m - 1]);
      MulMonotone(|DrawsTo(DRAWS, SpinSegment(risk), m - 1)|, DRAWS / 12 + 1, WheelSegments(risk)[m - 1]);
      Distributes(DRAWS / 12, FirstSegments(risk, m - 1), WheelSegments(risk)[m - 1]);
      Distributes(DRAWS / 12 + 1, FirstSegments(risk, m - 1), WheelSegments(risk)[m - 1]);
    }
    hide WheelSegments;
    hide DrawsTo;
  }

  lemma Distributes(x: int, y: int, z: int)
    ensures x * (y + z) == x * y + x * z
  {
  }

  lemma SegmentIsNotNegative(risk: Risk, k: nat)
    requires k < 12
    ensures WheelSegments(risk)[k] >= 0
  {
  }

  /**
   * Over all draws an honest spin pays a twelfth of the wheel's total, to within one draw a segment: 104.17, 162.50 and 541.67 percent
   * of the stake. The house edge plays no part in it, and every wheel pays back more than was staked.
   */
  lemma WheelReturn(risk: Risk)
    ensures var paid := SumBelow(DRAWS, SpinPays(risk));
            && DRAWS / 12 * WheelTotal(risk) <= paid <= (DRAWS / 12 + 1) * WheelTotal(risk)
            && paid > 100 * DRAWS
  {
    hide *;
    forall v: nat | v < DRAWS
      ensures SpinSegment(risk)(v) < 12 && SpinPays(risk)(v) == SegmentPays(risk)(SpinSegment(risk)(v))
    {
      SpinAt(risk, v);
    }
    SumByValue(DRAWS, SpinPays(risk), SpinSegment(risk), 12, SegmentPays(risk));
    WeightedSegments(risk, 12);
    SegmentsTotal(risk);
    MoreThanStaked(risk);
  }

  lemma SpinAt(risk: Risk, v: nat)
    requires v < DRAWS
    ensures SpinSegment(risk)(v) < 12 && SpinPays(risk)(v) == SegmentPays(risk)(SpinSegment(risk)(v))
  {
    SpinPaysSegment(risk, v);
    hide ResolveWheel;
    hide WheelSegments;
  }

  lemma MoreThanStaked(risk: Risk)
    ensures DRAWS / 12 * WheelTotal(risk) > 100 * DRAWS
  {
  }
}
