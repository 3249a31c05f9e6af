/** Model of the rounding of payouts in dlc-manager/src/payout_curve.rs. */
module PayoutRounding {

  import opened Results
  import opened Positional

  const U64_MAX: nat := 0xFFFF_FFFF_FFFF_FFFF

  datatype RoundingInterval = RoundingInterval(beginInterval: nat, roundingMod: nat)

  datatype RoundingError = EmptyIntervals | NotStartingAtZero | NotIncreasing

  predicate Increasing(intervals: seq<RoundingInterval>) {
    forall i, j :: 0 <= i < j < |intervals| ==> intervals[i].beginInterval < intervals[j].beginInterval
  }

  predicate ValidIntervals(intervals: seq<RoundingInterval>) {
    && intervals != []
    && intervals[0].beginInterval == 0
    && Increasing(intervals)
  }

  /** The modulus 0, which no validation excludes, is not part of the model. */
  predicate UsableIntervals(intervals: seq<RoundingInterval>) {
    && ValidIntervals(intervals)
    && forall i :: 0 <= i < |intervals| ==> intervals[i].roundingMod > 0
  }

  method Validate(intervals: seq<RoundingInterval>) returns (r: Result<(), RoundingError>)
    ensures r.Ok? <==> ValidIntervals(intervals)
    ensures r == Err(EmptyIntervals) <==> intervals == []
    ensures r == Err(NotStartingAtZero) <==> intervals != [] && intervals[0].beginInterval != 0
  {
    if intervals == [] {
      return Err(EmptyIntervals);
    }
    if intervals[0].beginInterval != 0 {
      return Err(NotStartingAtZero);
    }
    var cur := intervals[0].beginInterval;
    var i := 1;
    while i < |intervals|
      invariant 1 <= i <= |intervals| && cur == intervals[i - 1].beginInterval
      invariant Increasing(intervals[..i])
    {
      if intervals[i].beginInterval <= cur {
        assert !Increasing(intervals) by {
          assert intervals[i].beginInterval <= intervals[i - 1].beginInterval;
        }
        return Err(NotIncreasing);
      }
      assert forall j :: 0 <= j < i ==> intervals[..i][j].beginInterval <= cur;
      cur := intervals[i].beginInterval;
      i := i + 1;
    }
    assert intervals[..i] == intervals;
    return Ok(());
  }

  datatype Search = Found(index: nat) | InsertAt(index: nat)

  /** What a binary search for `outcome` among the sorted starts returns. */
  function BinarySearch(intervals: seq<RoundingInterval>, outcome: nat): (s: Search)
    requires Increasing(intervals)
    ensures s.Found? ==> s.index < |intervals| && intervals[s.index].beginInterval == outcome
    ensures s.InsertAt? ==> s.index <= |intervals|
    ensures s.InsertAt? ==> forall i :: 0 <= i < |intervals| ==>
                (intervals[i].beginInterval < outcome <==> i < s.index) && intervals[i].beginInterval != outcome
  {
    if intervals == [] then InsertAt(0)
    else
      var last := |intervals| - 1;
      if intervals[last].beginInterval == outcome then Found(last)
      else if intervals[last].beginInterval < outcome then InsertAt(|intervals|)
      else BinarySearch(intervals[..last], outcome)
  }

  function ModulusAt(intervals: seq<RoundingInterval>, outcome: nat): nat
    requires ValidIntervals(intervals)
  {
    match BinarySearch(intervals, outcome)
    case Found(index) => intervals[index].roundingMod
    case InsertAt(index) => intervals[index - 1].roundingMod
  }

  /** The modulus in force is that of the last interval starting at or before the outcome. */
  lemma ModulusIsLastStarted(intervals: seq<RoundingInterval>, outcome: nat, i: nat)
    requires ValidIntervals(intervals) && i < |intervals|
    requires intervals[i].beginInterval <= outcome
    requires i + 1 < |intervals| ==> outcome < intervals[i + 1].beginInterval
    ensures ModulusAt(intervals, outcome) == intervals[i].roundingMod
  {
    match BinarySearch(intervals, outcome)
    case Found(index) =>
      if i + 1 < index {
        assert false;
      }
    case InsertAt(index) =>
      assert i < index <= i + 1;
  }

  /** To the nearest integer, halves away from zero. */
  function RoundReal(x: real): int {
    if x >= 0.0 then (x + 0.5).Floor else -(-x + 0.5).Floor
  }

  /** How many times `m` fits into `x`. */
  function Wholes(x: real, m: nat): int
    requires m > 0
  {
    (x / m as real).Floor
  }

  /** The remainder of the division, with the sign of `x`. */
  function Remainder(x: real, m: nat): real
    requires m > 0
  {
    if x >= 0.0 then x - (m * Wholes(x, m)) as real else x + (m * Wholes(-x, m)) as real
  }

  /** The conversion of a rounded float to u64. */
  function ToU64(x: int): nat {
    if x < 0 then 0 else if x > U64_MAX then U64_MAX else x
  }

  function RoundToModulus(payout: real, modulus: nat): int
    requires modulus > 0
  {
    var m := if payout >= 0.0 then Remainder(payout, modulus) else Remainder(payout, modulus) + modulus as real;
    if m >= modulus as real / 2.0 then RoundReal(payout + modulus as real - m) else RoundReal(payout - m)
  }

  function Round(intervals: seq<RoundingInterval>, outcome: nat, payout: real): nat
    requires UsableIntervals(intervals)
  {
    ToU64(RoundToModulus(payout, ModulusAt(intervals, outcome)))
  }

  /** `k` multiples of the modulus come closest to the payout, ties going up. */
  predicate IsNearest(payout: real, modulus: nat, k: nat) {
    (modulus * k) as real - modulus as real / 2.0 <= payout < (modulus * k) as real + modulus as real / 2.0
  }

  lemma MulOrder(m: real, x: real, y: real)
    requires m > 0.0
    ensures x <= y ==> m * x <= m * y
    ensures x < y ==> m * x < m * y
  {
  }

  lemma ScaleQuotient(x: real, m: real)
    requires m > 0.0
    ensures m * (x / m) == x
    ensures x >= 0.0 ==> x / m >= 0.0
  {
  }

  lemma MulAsReal(m: nat, q: int)
    ensures m as real * q as real == (m * q) as real
  {
  }

  lemma ScaledBounds(x: real, y: real, m: nat, q: int)
    requires m > 0 && m as real * y == x && q as real <= y < (q + 1) as real
    ensures (m * q) as real <= x < (m * (q + 1)) as real
  {
    MulOrder(m as real, q as real, y);
    MulAsReal(m, q);
    MulOrder(m as real, y, (q + 1) as real);
    MulAsReal(m, q + 1);
  }

  lemma WholesBounds(x: real, m: nat)
    requires x >= 0.0 && m > 0
    ensures var q := Wholes(x, m); q >= 0 && (m * q) as real <= x < (m * q + m) as real
  {
    var q := Wholes(x, m);
    ScaleQuotient(x, m as real);
    ScaledBounds(x, x / m as real, m, q);
    NextMultiple(m, q);
  }

  lemma NextMultiple(m: nat, q: int)
    ensures m * (q + 1) == m * q + m
  {
  }

  lemma RoundWhole(x: int)
    ensures RoundReal(x as real) == x
  {
  }

  /** Rounding goes to the nearest multiple of the modulus, ties upwards. */
  lemma RoundsToNearest(payout: real, modulus: nat) returns (k: nat)
    requires payout >= 0.0 && modulus > 0
    ensures RoundToModulus(payout, modulus) == modulus * k && IsNearest(payout, modulus, k)
  {
    WholesBounds(payout, modulus);
    var q := Wholes(payout, modulus);
    NextMultiple(modulus, q);
    RoundWhole(modulus * q);
    RoundWhole(modulus * q + modulus);
    k := if Remainder(payout, modulus) >= modulus as real / 2.0 then q + 1 else q;
  }

  lemma MultiplesOrdered(m: nat, k: nat, l: nat)
    ensures k <= l ==> m * k <= m * l
    ensures k < l ==> m * k + m <= m * l
  {
    if k < l {
      MulMonotone(k + 1, l, m);
      NextMultiple(m, k);
    }
  }

  /** Larger payouts never round to less. */
  lemma RoundMonotone(x: real, y: real, modulus: nat)
    requires modulus > 0 && 0.0 <= x <= y
    ensures 0 <= RoundToModulus(x, modulus) <= RoundToModulus(y, modulus)
  {
    var k := RoundsToNearest(x, modulus);
    var l := RoundsToNearest(y, modulus);
    MultiplesOrdered(modulus, 0, k);
    MultiplesOrdered(modulus, k, l);
    MultiplesOrdered(modulus, l, k);
  }
}
