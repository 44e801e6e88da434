/** Elevation gain and loss accumulated from a smoothed altitude series,
    ignoring changes inside the +/-0.1 m dead-band. */
module Elevation {
  import opened Smoothing

  /** Half-width of the dead-band, in metres. */
  const DeadBand: real := 0.1

  /** What a smoothed change `d` adds to the gain. */
  function GainStep(d: real): real {
    if d > DeadBand then d else 0.0
  }

  /** What a smoothed change `d` adds to the loss (`Math.abs(d)` when it counts). */
  function LossStep(d: real): real {
    if d > DeadBand then 0.0 else if d < -DeadBand then -d else 0.0
  }

  /** A change adds its size to exactly one side when it leaves the dead-band,
      and to neither side inside it; descending is climbing backwards. */
  lemma StepRules(d: real)
    ensures GainStep(d) >= 0.0 && LossStep(d) >= 0.0
    ensures GainStep(d) == 0.0 || LossStep(d) == 0.0
    ensures -DeadBand <= d <= DeadBand ==> GainStep(d) == 0.0 && LossStep(d) == 0.0
    ensures !(-DeadBand <= d <= DeadBand) ==> GainStep(d) - LossStep(d) == d
    ensures GainStep(-d) == LossStep(d)
  {
  }

  /** Total gain over consecutive changes of `s`, accumulated in travel order. */
  function ElevGain(s: seq<real>): real {
    if |s| < 2 then 0.0 else ElevGain(s[..|s| - 1]) + GainStep(s[|s| - 1] - s[|s| - 2])
  }

  /** Total loss over consecutive changes of `s`, accumulated in travel order. */
  function ElevLoss(s: seq<real>): real {
    if |s| < 2 then 0.0 else ElevLoss(s[..|s| - 1]) + LossStep(s[|s| - 1] - s[|s| - 2])
  }

  /** Gain and loss only ever grow along a track: a prefix never has more. */
  lemma {:induction false} GainLossMonotone(s: seq<real>, j: nat)
    requires j <= |s|
    ensures 0.0 <= ElevGain(s[..j]) <= ElevGain(s)
    ensures 0.0 <= ElevLoss(s[..j]) <= ElevLoss(s)
  {
    if j < |s| {
      var init := s[..|s| - 1];
      assert s[..j] == init[..j];
      GainLossMonotone(init, j);
      GainLossMonotone(init, |init|);
      assert init[..|init|] == init;
      if |s| >= 2 {
        StepRules(s[|s| - 1] - s[|s| - 2]);
      }
    } else {
      assert s[..j] == s;
      if |s| >= 2 {
        GainLossMonotone(s[..|s| - 1], |s| - 1);
        StepRules(s[|s| - 1] - s[|s| - 2]);
      }
    }
  }

  /** Gain minus loss differs from the true net climb by at most the
      dead-band per segment. */
  lemma {:induction false} NetClimbBound(s: seq<real>)
    requires |s| >= 1
    ensures -DeadBand * ((|s| - 1) as real) <= (s[|s| - 1] - s[0]) - (ElevGain(s) - ElevLoss(s)) <= DeadBand * ((|s| - 1) as real)
  {
    if |s| >= 2 {
      var init := s[..|s| - 1];
      NetClimbBound(init);
      StepRules(s[|s| - 1] - s[|s| - 2]);
    }
  }

  /** A flat series has neither gain nor loss. */
  lemma {:induction false} FlatHasNoClimb(s: seq<real>, c: real)
    requires forall k :: 0 <= k < |s| ==> s[k] == c
    ensures ElevGain(s) == 0.0 && ElevLoss(s) == 0.0
  {
    if |s| >= 2 {
      FlatHasNoClimb(s[..|s| - 1], c);
    }
  }

  lemma {:induction false} ClimbCons(x: real, t: seq<real>)
    requires |t| >= 1
    ensures ElevGain([x] + t) == GainStep(t[0] - x) + ElevGain(t)
    ensures ElevLoss([x] + t) == LossStep(t[0] - x) + ElevLoss(t)
  {
    var xt := [x] + t;
    if |t| >= 2 {
      assert xt[..|xt| - 1] == [x] + t[..|t| - 1];
      ClimbCons(x, t[..|t| - 1]);
    } else {
      assert xt[..1] == [x];
    }
  }

  /** Travelling a track backwards turns every climb into a descent:
      gain and loss swap exactly. */
  lemma {:induction false} ReverseSwapsGainAndLoss(s: seq<real>)
    ensures ElevGain(Reverse(s)) == ElevLoss(s)
    ensures ElevLoss(Reverse(s)) == ElevGain(s)
  {
    if |s| >= 2 {
      var init := s[..|s| - 1];
      var x := s[|s| - 1];
      assert Reverse(s) == [x] + Reverse(init);
      ClimbCons(x, Reverse(init));
      ReverseSwapsGainAndLoss(init);
      StepRules(x - s[|s| - 2]);
      assert Reverse(init)[0] - x == -(x - s[|s| - 2]);
    } else {
      assert |Reverse(s)| < 2;
    }
  }
}
