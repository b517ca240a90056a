/**
 * One pass of the main loop: the decision made on a frame's extracted
 * features, and the state the loop carries from one frame to the next.
 */
module Pipeline {
  import opened Basics
  import opened Config
  import opened Geometry
  import opened Motion
  import opened Classifier
  import opened Stabilizer

  /**
   * What the feature extractors report for one frame: the texture score, the
   * gradient-angle variance, the external contours and the flow field against
   * the previous frame (ignored when there is none).
   */
  datatype FrameInput = FrameInput(variance: real, angleVariance: real, contours: seq<Contour>, flow: FlowField)

  /** The features the classifier sees once `c` has qualified as anomaly geometry. */
  function FeaturesOf(c: Contour, frame: FrameInput, m: MotionEstimate): (f: Features)
    ensures f.area == c.area && f.variance == frame.variance && f.meanFlow == m.meanFlow
  {
    Features(c.area, AspectRatio(c.width, c.height), Solidity(c.area, c.hullArea),
      frame.variance, frame.angleVariance, m.meanFlow)
  }

  /**
   * The raw label and collision-risk flag of one frame. Without qualifying
   * geometry the frame is NORMAL with no risk whatever else it shows; without
   * a previous frame it can be neither a turn nor a collision risk.
   */
  function AnalyzeFrame(p: SensitivityProfile, hasPrevious: bool, frame: FrameInput): (r: FrameResult)
    ensures DominantContour(frame.contours, p.minArea).None? ==> r == FrameResult(Normal, false)
    ensures !hasPrevious ==> r.rawLabel != Turn && !r.risk
    ensures r.risk <==> (DominantContour(frame.contours, p.minArea).Some? && hasPrevious &&
      CollisionRisk(TimeToCollision(frame.flow.samples, p.minFlowMag), p.ttcThreshold))
    ensures DominantContour(frame.contours, p.minArea).Some? ==>
      r.rawLabel == Classify(FeaturesOf(DominantContour(frame.contours, p.minArea).value, frame,
        Estimate(p, hasPrevious, frame.flow)))
  {
    match DominantContour(frame.contours, p.minArea)
    case None => FrameResult(Normal, false)
    case Some(c) =>
      var m := Estimate(p, hasPrevious, frame.flow);
      FrameResult(Classify(FeaturesOf(c, frame, m)), m.risk)
  }

  /**
   * The state the main loop keeps across frames: whether a previous frame is
   * held for optical flow, the anomaly run counter and the shown label.
   */
  class RoadMonitor {
    var hasPrevious: bool
    var counter: nat
    var finalLabel: Label

    ghost predicate Valid()
      reads this
    {
      Consistent(StabilizerState(counter, finalLabel))
    }

    /** The stabiliser's part of the state. */
    function State(): StabilizerState
      reads this
    {
      StabilizerState(counter, finalLabel)
    }

    constructor ()
      ensures Valid()
      ensures !hasPrevious && State() == RESET
    {
      hasPrevious := false;
      counter := 0;
      finalLabel := Normal;
    }

    /**
     * Analyse one frame under the current lighting mode, update the run counter
     * and the shown label, and keep this frame as the previous one.
     */
    method ProcessFrame(nightMode: bool, frame: FrameInput) returns (rawLabel: Label, risk: bool)
      requires Valid()
      modifies this
      ensures Valid()
      ensures FrameResult(rawLabel, risk) == AnalyzeFrame(SelectProfile(nightMode), old(hasPrevious), frame)
      ensures State() == Stabilize(old(State()), FrameResult(rawLabel, risk))
      ensures hasPrevious
    {
      var result := AnalyzeFrame(SelectProfile(nightMode), hasPrevious, frame);
      rawLabel, risk := result.rawLabel, result.risk;
      if rawLabel != Normal {
        counter := counter + 1;
      } else {
        counter := 0;
        finalLabel := Normal;
      }
      if counter >= TEMPORAL_FRAMES && !risk {
        finalLabel := rawLabel;
      }
      hasPrevious := true;
    }

    /** A stalled stream drops the previous frame; the run counter and the shown label survive. */
    method StreamStalled()
      requires Valid()
      modifies this`hasPrevious
      ensures Valid()
      ensures !hasPrevious
      ensures State() == old(State())
    {
      hasPrevious := false;
    }
  }

  /** A client of the monitor: three frames, the third one read after a stall. */
  method ThreeFrames(nightMode: bool, a: FrameInput, b: FrameInput, c: FrameInput)
    returns (shown: Label)
    ensures shown == Run(RESET, [
      AnalyzeFrame(SelectProfile(nightMode), false, a),
      AnalyzeFrame(SelectProfile(nightMode), true, b),
      AnalyzeFrame(SelectProfile(nightMode), false, c)]).finalLabel
  {
    var p := SelectProfile(nightMode);
    var frames := [AnalyzeFrame(p, false, a), AnalyzeFrame(p, true, b), AnalyzeFrame(p, false, c)];
    var monitor := new RoadMonitor();
    var la, ra := monitor.ProcessFrame(nightMode, a);
    ghost var s1 := monitor.State();
    assert s1 == Stabilize(RESET, frames[0]);
    var lb, rb := monitor.ProcessFrame(nightMode, b);
    ghost var s2 := monitor.State();
    assert s2 == Stabilize(s1, frames[1]);
    monitor.StreamStalled();
    var lc, rc := monitor.ProcessFrame(nightMode, c);
    assert monitor.State() == Stabilize(s2, frames[2]);
    shown := monitor.finalLabel;
    assert frames[1..] == [frames[1], frames[2]] && frames[1..][1..] == [frames[2]] && [frames[2]][1..] == [];
    assert Run(s2, [frames[2]]) == monitor.State();
    assert Run(s1, frames[1..]) == Run(s2, [frames[2]]);
    assert Run(RESET, frames) == Run(s1, frames[1..]);
  }

  /** A frame with a 400-pixel concave contour of rough texture and no previous frame is a pothole, without risk. */
  lemma PotholeScenario()
    ensures AnalyzeFrame(SelectProfile(false), false,
      FrameInput(200.0, 0.1, [Contour(400.0, 25, 20, 560.0)], FlowField(0.0, [])))
      == FrameResult(Pothole, false)
  {
  }

  /** A contour four times wider than high on medium texture is a crack. */
  lemma CrackScenario()
    ensures AnalyzeFrame(SelectProfile(false), false,
      FrameInput(150.0, 0.1, [Contour(400.0, 40, 10, 410.0)], FlowField(0.0, [])))
      == FrameResult(CrackRough, false)
  {
  }

  /**
   * Strong outward flow giving a time to collision of 0.5 under the day profile
   * raises collision risk, and the crack that would have been committed on the
   * third frame of its run is not shown.
   */
  lemma CollisionSuppressesCommit()
    ensures var r := AnalyzeFrame(SelectProfile(false), true,
      FrameInput(150.0, 0.1, [Contour(400.0, 40, 10, 410.0)], FlowField(0.0, [FlowSample(50.0, 2.0)])));
      r == FrameResult(CrackRough, true) &&
      Stabilize(StabilizerState(2, Normal), r) == StabilizerState(3, Normal)
  {
  }
}
