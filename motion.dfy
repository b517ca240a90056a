/**
 * Motion analysis against the previous frame: the mean horizontal flow used as
 * a turning signal and the time to collision derived from radial expansion.
 */
module Motion {
  import opened Basics
  import opened Config

  /** The flow at one pixel: its magnitude and its radial (outward) component over the distance from the centre. */
  datatype FlowSample = FlowSample(magnitude: real, radial: real)

  /** The dense flow field reduced to what the decision uses. */
  datatype FlowField = FlowField(meanHorizontal: real, samples: seq<FlowSample>)

  /** Mean turning flow, time to collision (None is infinite) and the collision-risk flag. */
  datatype MotionEstimate = MotionEstimate(meanFlow: real, ttc: Option<real>, risk: bool)

  /** The radial values of the pixels whose flow magnitude exceeds `minMag`, each once and in pixel order. */
  function Expansions(samples: seq<FlowSample>, minMag: real): (r: seq<real>)
    ensures |r| <= |samples|
    ensures |r| > 0 <==> exists i :: 0 <= i < |samples| && samples[i].magnitude > minMag
    ensures forall i :: 0 <= i < |samples| && samples[i].magnitude > minMag ==> samples[i].radial in r
    ensures forall x :: x in r ==> exists i :: 0 <= i < |samples| && samples[i].magnitude > minMag && samples[i].radial == x
  {
    if samples == [] then []
    else
      var rest := Expansions(samples[1..], minMag);
      assert forall x :: x in rest ==> exists i :: 0 <= i < |samples| && samples[i].magnitude > minMag && samples[i].radial == x by {
        forall x | x in rest
          ensures exists i :: 0 <= i < |samples| && samples[i].magnitude > minMag && samples[i].radial == x
        {
          var i :| 0 <= i < |samples[1..]| && samples[1..][i].magnitude > minMag && samples[1..][i].radial == x;
          assert samples[i + 1] == samples[1..][i];
        }
      }
      assert (exists i :: 1 <= i < |samples| && samples[i].magnitude > minMag) ==> |rest| > 0 by {
        if i :| 1 <= i < |samples| && samples[i].magnitude > minMag {
          assert samples[1..][i - 1] == samples[i];
        }
      }
      (if samples[0].magnitude > minMag then [samples[0].radial] else []) + rest
  }

  /** `r[k]` is the radial value of pixel `idx[k]`. */
  ghost predicate Picks(samples: seq<FlowSample>, idx: seq<nat>, r: seq<real>)
  {
    |idx| == |r| && forall k :: 0 <= k < |idx| ==> idx[k] < |samples| && r[k] == samples[idx[k]].radial
  }

  ghost predicate Increasing(idx: seq<nat>)
  {
    forall k, l :: 0 <= k < l < |idx| ==> idx[k] < idx[l]
  }

  /** `idx` lists exactly the pixels faster than `minMag`. */
  ghost predicate ExactlyFast(samples: seq<FlowSample>, minMag: real, idx: seq<nat>)
  {
    forall i :: 0 <= i < |samples| ==> (samples[i].magnitude > minMag <==> i in idx)
  }

  /** `r` holds the radial values of exactly the fast pixels, each once, in increasing pixel order. */
  ghost predicate FastPixelsInOrder(samples: seq<FlowSample>, minMag: real, idx: seq<nat>, r: seq<real>)
  {
    Picks(samples, idx, r) && Increasing(idx) && ExactlyFast(samples, minMag, idx)
  }

  /** Every index moved one pixel on. */
  ghost function Shift(idx: seq<nat>): (moved: seq<nat>)
    ensures |moved| == |idx|
    ensures forall k :: 0 <= k < |idx| ==> moved[k] == idx[k] + 1
  {
    seq(|idx|, k requires 0 <= k < |idx| => idx[k] + 1)
  }

  /** The indices of a pixel sequence extended by one pixel at the front. */
  ghost function ConsIndices(fast: bool, idx: seq<nat>): seq<nat>
  {
    (if fast then [0] else []) + Shift(idx)
  }

  /** The selection keeps every fast pixel's radial value exactly once, in pixel order. */
  lemma {:induction false} ExpansionsInOrder(samples: seq<FlowSample>, minMag: real)
    ensures exists idx :: FastPixelsInOrder(samples, minMag, idx, Expansions(samples, minMag))
    decreases |samples|
  {
    if samples == [] {
      assert Expansions(samples, minMag) == [];
      assert FastPixelsInOrder(samples, minMag, [], []);
    } else {
      ExpansionsInOrder(samples[1..], minMag);
      var rest := Expansions(samples[1..], minMag);
      var idx :| FastPixelsInOrder(samples[1..], minMag, idx, rest);
      var fast := samples[0].magnitude > minMag;
      ConsPicks(samples, idx, rest, fast);
      ConsIncreasing(idx, fast);
      ConsExactlyFast(samples, minMag, idx);
      assert FastPixelsInOrder(samples, minMag, ConsIndices(fast, idx), Expansions(samples, minMag));
    }
  }

  lemma ConsPicks(samples: seq<FlowSample>, idx: seq<nat>, rest: seq<real>, fast: bool)
    requires |samples| > 0
    requires Picks(samples[1..], idx, rest)
    ensures Picks(samples, ConsIndices(fast, idx), (if fast then [samples[0].radial] else []) + rest)
  {
    var head: seq<nat> := if fast then [0] else [];
    var moved := Shift(idx);
    var all := head + moved;
    var r := (if fast then [samples[0].radial] else []) + rest;
    var h := |head|;
    forall k | 0 <= k < |all|
      ensures all[k] < |samples| && r[k] == samples[all[k]].radial
    {
      if k >= h {
        assert all[k] == moved[k - h] == idx[k - h] + 1;
        assert r[k] == rest[k - h];
        assert samples[1..][idx[k - h]] == samples[idx[k - h] + 1];
      }
    }
    assert ConsIndices(fast, idx) == all;
  }

  lemma ConsIncreasing(idx: seq<nat>, fast: bool)
    requires Increasing(idx)
    ensures Increasing(ConsIndices(fast, idx))
  {
    var head: seq<nat> := if fast then [0] else [];
    var moved := Shift(idx);
    var all := head + moved;
    var h := |head|;
    forall k, l | 0 <= k < l < |all|
      ensures all[k] < all[l]
    {
      assert all[l] == moved[l - h];
      if k >= h {
        assert all[k] == moved[k - h];
        assert idx[k - h] < idx[l - h];
      }
    }
    assert ConsIndices(fast, idx) == all;
  }

  lemma ConsExactlyFast(samples: seq<FlowSample>, minMag: real, idx: seq<nat>)
    requires |samples| > 0
    requires ExactlyFast(samples[1..], minMag, idx)
    ensures ExactlyFast(samples, minMag, ConsIndices(samples[0].magnitude > minMag, idx))
  {
    var fast := samples[0].magnitude > minMag;
    var head: seq<nat> := if fast then [0] else [];
    var moved := Shift(idx);
    var all := head + moved;
    var h := |head|;
    forall i | 0 <= i < |samples|
      ensures samples[i].magnitude > minMag <==> i in all
    {
      if i == 0 {
        assert 0 !in moved;
        assert fast ==> all[0] == 0;
      } else {
        assert samples[1..][i - 1] == samples[i];
        if i - 1 in idx {
          var m :| 0 <= m < |idx| && idx[m] == i - 1;
          assert all[m + h] == moved[m] == i;
        }
        if i in all {
          var m :| 0 <= m < |all| && all[m] == i;
          assert m >= h;
          assert moved[m - h] == i;
          assert idx[m - h] == i - 1;
        }
      }
    }
    assert ConsIndices(fast, idx) == all;
  }

  function Sum(xs: seq<real>): real
  {
    if xs == [] then 0.0 else xs[0] + Sum(xs[1..])
  }

  /** Arithmetic mean of a non-empty sequence; it has the sign of the sum. */
  function Mean(xs: seq<real>): (m: real)
    requires |xs| > 0
    ensures m * |xs| as real == Sum(xs)
    ensures m > 0.0 <==> Sum(xs) > 0.0
  {
    Sum(xs) / |xs| as real
  }

  /**
   * Time to collision from the qualifying pixels: finite exactly when some pixel
   * moves faster than `minMag` and their mean expansion is positive, and then
   * the reciprocal of that mean.
   */
  function TimeToCollision(samples: seq<FlowSample>, minMag: real): (ttc: Option<real>)
    ensures ttc.Some? <==> |Expansions(samples, minMag)| > 0 && Mean(Expansions(samples, minMag)) > 0.0
    ensures ttc.Some? ==> ttc.value > 0.0 && ttc.value * Mean(Expansions(samples, minMag)) == 1.0
  {
    var e := Expansions(samples, minMag);
    if |e| > 0 && Mean(e) > 0.0 then Some(1.0 / Mean(e)) else None
  }

  /** An infinite time to collision never compares below the threshold. */
  predicate CollisionRisk(ttc: Option<real>, threshold: real)
  {
    ttc.Some? && ttc.value < threshold
  }

  /**
   * The motion estimate of one frame. Without a previous frame there is no
   * flow: the mean flow is zero, the time to collision infinite and there is no risk.
   */
  function Estimate(p: SensitivityProfile, hasPrevious: bool, flow: FlowField): (r: MotionEstimate)
    ensures !hasPrevious ==> r == MotionEstimate(0.0, None, false)
    ensures hasPrevious ==> r.meanFlow == flow.meanHorizontal && r.ttc == TimeToCollision(flow.samples, p.minFlowMag)
    ensures r.risk <==> r.ttc.Some? && r.ttc.value < p.ttcThreshold
  {
    if !hasPrevious then MotionEstimate(0.0, None, false)
    else
      var ttc := TimeToCollision(flow.samples, p.minFlowMag);
      MotionEstimate(flow.meanHorizontal, ttc, CollisionRisk(ttc, p.ttcThreshold))
  }

  lemma {:induction false} PositiveSumHasPositiveTerm(xs: seq<real>)
    requires Sum(xs) > 0.0
    ensures exists i :: 0 <= i < |xs| && xs[i] > 0.0
  {
    if xs[0] <= 0.0 {
      PositiveSumHasPositiveTerm(xs[1..]);
      var i :| 0 <= i < |xs[1..]| && xs[1..][i] > 0.0;
      assert xs[i + 1] > 0.0;
    }
  }

  lemma {:induction false} PositiveTermsHavePositiveSum(xs: seq<real>)
    requires |xs| > 0
    requires forall i :: 0 <= i < |xs| ==> xs[i] > 0.0
    ensures Sum(xs) > 0.0
  {
    if |xs| > 1 {
      PositiveTermsHavePositiveSum(xs[1..]);
    }
  }

  /** A finite time to collision needs a fast pixel that moves away from the centre. */
  lemma FiniteTtcNeedsExpandingPixel(samples: seq<FlowSample>, minMag: real)
    requires TimeToCollision(samples, minMag).Some?
    ensures exists i :: 0 <= i < |samples| && samples[i].magnitude > minMag && samples[i].radial > 0.0
  {
    var e := Expansions(samples, minMag);
    PositiveSumHasPositiveTerm(e);
    var k :| 0 <= k < |e| && e[k] > 0.0;
    assert e[k] in e;
  }

  /** When every fast pixel moves away from the centre, and there is one, the time to collision is finite. */
  lemma UniformExpansionHasFiniteTtc(samples: seq<FlowSample>, minMag: real)
    requires exists i :: 0 <= i < |samples| && samples[i].magnitude > minMag
    requires forall i :: 0 <= i < |samples| && samples[i].magnitude > minMag ==> samples[i].radial > 0.0
    ensures TimeToCollision(samples, minMag).Some?
  {
    var e := Expansions(samples, minMag);
    var i :| 0 <= i < |samples| && samples[i].magnitude > minMag;
    assert samples[i].radial in e;
    forall k | 0 <= k < |e|
      ensures e[k] > 0.0
    {
      assert e[k] in e;
    }
    PositiveTermsHavePositiveSum(e);
  }

  /** When no pixel moves faster than the minimum, the time to collision is infinite. */
  lemma StillFieldHasInfiniteTtc(samples: seq<FlowSample>, minMag: real)
    requires forall i :: 0 <= i < |samples| ==> samples[i].magnitude <= minMag
    ensures TimeToCollision(samples, minMag) == None
  {
  }

  /**
   * With a positive threshold, collision risk is raised exactly when the mean
   * expansion of the fast pixels exceeds the reciprocal of the threshold.
   */
  lemma RiskIffFastExpansion(samples: seq<FlowSample>, minMag: real, threshold: real)
    requires threshold > 0.0
    ensures CollisionRisk(TimeToCollision(samples, minMag), threshold) <==>
      |Expansions(samples, minMag)| > 0 && Mean(Expansions(samples, minMag)) > 1.0 / threshold
  {
    var e := Expansions(samples, minMag);
    if |e| > 0 && Mean(e) > 0.0 {
      ReciprocalBelow(Mean(e), threshold);
    } else if |e| > 0 {
      assert 1.0 / threshold > 0.0;
    }
  }

  /** For positive reals, 1/m < t exactly when m > 1/t. */
  lemma ReciprocalBelow(m: real, t: real)
    requires m > 0.0 && t > 0.0
    ensures 1.0 / m < t <==> m > 1.0 / t
  {
  }
}
