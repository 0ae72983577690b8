/** The comparator's laws: every dimension lies in the unit interval, and
    swapping the reviewers changes neither distances nor triggers. */
module ChimeraLaws {
  import opened ReviewTypes
  import opened Claims
  import opened Chimera
  import SetDistance

  predicate Unit(x: real) {
    0.0 <= x <= 1.0
  }

  lemma GapInUnit(x: real, y: real, d: real)
    requires d > 0.0
    ensures Unit(RelativeGap(x, y, d)) && RelativeGap(x, y, d) == RelativeGap(y, x, d)
  {
    assert Abs(x - y) == Abs(y - x);
    SetDistance.Quotient(Abs(x - y), d, 0.0);
  }

  lemma MagnitudeGapInUnit(x: Option<real>, y: Option<real>)
    ensures Unit(MagnitudeGap(x, y)) && MagnitudeGap(x, y) == MagnitudeGap(y, x)
  {
    if x.Some? && y.Some? {
      GapInUnit(x.value, y.value, Max(Max(Abs(x.value), Abs(y.value)), SMALLEST));
    }
  }

  lemma {:induction false} LargestGapInUnit(left: seq<Action>, right: seq<Action>, n: nat)
    requires n <= |left|
    ensures Unit(LargestGap(left, right, n))
    ensures forall i :: 0 <= i < n ==>
              MagnitudeGap(MagnitudeOf(left, KeyOf(left[i])), MagnitudeOf(right, KeyOf(left[i]))) <= LargestGap(left, right, n)
    ensures LargestGap(left, right, n) == 0.0 ||
            (exists i :: 0 <= i < n &&
               LargestGap(left, right, n) == MagnitudeGap(MagnitudeOf(left, KeyOf(left[i])), MagnitudeOf(right, KeyOf(left[i]))))
  {
    hide MagnitudeGap, MagnitudeOf;
    if n > 0 {
      LargestGapInUnit(left, right, n - 1);
      MagnitudeGapInUnit(MagnitudeOf(left, KeyOf(left[n - 1])), MagnitudeOf(right, KeyOf(left[n - 1])));
    }
  }

  /** Each largest gap is attained at a key the other side has too. */
  lemma LargestGapBelow(left: seq<Action>, right: seq<Action>)
    requires Keys(left) <= Keys(right)
    ensures LargestGap(left, right, |left|) <= LargestGap(right, left, |right|)
  {
    hide MagnitudeGap, MagnitudeOf;
    LargestGapInUnit(left, right, |left|);
    LargestGapInUnit(right, left, |right|);
    if LargestGap(left, right, |left|) != 0.0 {
      var i :| 0 <= i < |left| &&
        LargestGap(left, right, |left|) == MagnitudeGap(MagnitudeOf(left, KeyOf(left[i])), MagnitudeOf(right, KeyOf(left[i])));
      var key := KeyOf(left[i]);
      assert key in Keys(left);
      var b :| b in right && KeyOf(b) == key;
      var j :| 0 <= j < |right| && right[j] == b;
      MagnitudeGapInUnit(MagnitudeOf(left, key), MagnitudeOf(right, key));
    }
  }

  lemma MagnitudeLaws(left: Assessment, right: Assessment)
    ensures Unit(MagnitudeDistance(left, right)) && MagnitudeDistance(left, right) == MagnitudeDistance(right, left)
  {
    hide LargestGap;
    LargestGapInUnit(left.actions, right.actions, |left.actions|);
    if Keys(left.actions) == Keys(right.actions) {
      LargestGapBelow(left.actions, right.actions);
      LargestGapBelow(right.actions, left.actions);
    }
  }

  lemma {:induction false} UrgencyRange(actions: seq<Action>)
    ensures LatestUrgency(actions) <= 2
    decreases |actions|
  {
    if |actions| > 1 { UrgencyRange(actions[..|actions| - 1]); }
  }

  lemma TimingLaws(left: Assessment, right: Assessment)
    ensures Unit(TimingDistance(left, right)) && TimingDistance(left, right) == TimingDistance(right, left)
  {
    UrgencyRange(left.actions);
    UrgencyRange(right.actions);
    if left.reviewAfter.Some? && right.reviewAfter.Some? {
      var x, y := left.reviewAfter.value, right.reviewAfter.value;
      GapInUnit(x, y, Max(Max(x, y), SMALLEST));
      assert Max(Max(x, y), SMALLEST) == Max(Max(y, x), SMALLEST);
    }
    hide RelativeGap, LatestUrgency;
  }

  /** Every dimension lies in [0,1] and is symmetric. */
  lemma DimensionLaws(d: Dimension, left: Assessment, right: Assessment, tp: TaskPack)
    ensures Unit(DimensionDistance(d, left, right, tp))
    ensures DimensionDistance(d, left, right, tp) == DimensionDistance(d, right, left, tp)
  {
    match d
    case ActionTypeDirection =>
      SetDistance.DistanceBounds(Directions(tp, left.actions), Directions(tp, right.actions));
      SetDistance.DistanceSymmetric(Directions(tp, left.actions), Directions(tp, right.actions));
    case TargetScope =>
      SetDistance.DistanceBounds(Targets(left.actions), Targets(right.actions));
      SetDistance.DistanceSymmetric(Targets(left.actions), Targets(right.actions));
    case MagnitudeExposure => MagnitudeLaws(left, right);
    case UrgencyTiming => TimingLaws(left, right);
    case _ =>
  }

  predicate WeightsValid(tp: TaskPack) {
    forall d :: d in tp.weights ==> 0.0 <= tp.weights[d]
  }

  /** The weighted distance never exceeds the total weight. */
  lemma {:induction false} WeightedLaws(left: Assessment, right: Assessment, tp: TaskPack, n: nat)
    requires n <= |DIMENSIONS| && WeightsValid(tp)
    ensures 0.0 <= Weighted(left, right, tp, n) <= TotalWeight(tp, n)
    ensures Weighted(left, right, tp, n) == Weighted(right, left, tp, n)
  {
    hide DimensionDistance;
    if n > 0 {
      WeightedLaws(left, right, tp, n - 1);
      var d := DIMENSIONS[n - 1];
      DimensionLaws(d, left, right, tp);
      var w, x := WeightOf(tp, d), DimensionDistance(d, left, right, tp);
      Scaled(w, x);
      assert Weighted(left, right, tp, n) == Weighted(left, right, tp, n - 1) + w * x;
      assert TotalWeight(tp, n) == TotalWeight(tp, n - 1) + w;
    }
  }

  lemma Scaled(w: real, x: real)
    requires 0.0 <= w && Unit(x)
    ensures 0.0 <= w * x <= w
  {
    assert w * (1.0 - x) >= 0.0;
    assert w * (1.0 - x) == w - w * x;
  }

  lemma RaisesSymmetric(t: HardTrigger, left: Assessment, right: Assessment, tp: TaskPack, failedGoal: bool)
    ensures Raises(t, left, right, tp, failedGoal) == Raises(t, right, left, tp, failedGoal)
  {
    match t
    case OppositeActionDirection =>
      OppositeFlips(left, right, tp);
      OppositeFlips(right, left, tp);
    case IncompatibleTargetScope => assert Targets(left.actions) * Targets(right.actions) == Targets(right.actions) * Targets(left.actions);
    case ActionOutsideOntology => assert Kinds(left.actions) + Kinds(right.actions) == Kinds(right.actions) + Kinds(left.actions);
    case _ =>
  }

  lemma OppositeFlips(left: Assessment, right: Assessment, tp: TaskPack)
    ensures Opposite(left, right, tp) ==> Opposite(right, left, tp)
  {
    if Opposite(left, right, tp) {
      var t :| t in Targets(left.actions) && t in Targets(right.actions) && OppositeAt(left, right, tp, t);
      assert OppositeAt(right, left, tp, t);
    }
  }

  lemma {:induction false} TriggersSymmetric(left: Assessment, right: Assessment, tp: TaskPack, failedGoal: bool, n: nat)
    requires n <= |TRIGGERS|
    ensures HardTriggers(left, right, tp, failedGoal, n) == HardTriggers(right, left, tp, failedGoal, n)
  {
    hide Raises;
    if n > 0 {
      TriggersSymmetric(left, right, tp, failedGoal, n - 1);
      RaisesSymmetric(TRIGGERS[n - 1], left, right, tp, failedGoal);
    }
  }
}
