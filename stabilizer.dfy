/**
 * Temporal stabiliser: a run counter of consecutive non-NORMAL frames and the
 * committed label shown to the driver.
 */
module Stabilizer {
  import opened Config
  import opened Classifier

  /** What one analysed frame hands to the stabiliser: its raw label and the collision-risk flag. */
  datatype FrameResult = FrameResult(rawLabel: Label, risk: bool)

  datatype StabilizerState = StabilizerState(counter: nat, finalLabel: Label)

  /** The state at stream start. */
  const RESET: StabilizerState := StabilizerState(0, Normal)

  /** A committed anomaly label is only ever shown after a confirmed run. */
  predicate Consistent(s: StabilizerState)
  {
    s.finalLabel != Normal ==> s.counter >= TEMPORAL_FRAMES
  }

  /**
   * One frame of stabilisation. Any non-NORMAL label extends the run, whatever
   * label the previous frames had; a NORMAL label ends it and clears the shown
   * label at once. A run of at least TEMPORAL_FRAMES commits the frame's label
   * unless collision risk is flagged, in which case the shown label is held.
   */
  function Stabilize(s: StabilizerState, frame: FrameResult): (t: StabilizerState)
    ensures frame.rawLabel == Normal ==> t == RESET
    ensures frame.rawLabel != Normal ==> t.counter == s.counter + 1
    ensures frame.rawLabel != Normal && (frame.risk || t.counter < TEMPORAL_FRAMES) ==> t.finalLabel == s.finalLabel
    ensures frame.rawLabel != Normal && !frame.risk && t.counter >= TEMPORAL_FRAMES ==> t.finalLabel == frame.rawLabel
    ensures Consistent(s) ==> Consistent(t)
  {
    var counter := if frame.rawLabel != Normal then s.counter + 1 else 0;
    var shown := if frame.rawLabel != Normal then s.finalLabel else Normal;
    StabilizerState(counter, if counter >= TEMPORAL_FRAMES && !frame.risk then frame.rawLabel else shown)
  }

  /** The state after a sequence of frames, oldest first. */
  function Run(s: StabilizerState, frames: seq<FrameResult>): StabilizerState
    decreases |frames|
  {
    if frames == [] then s else Run(Stabilize(s, frames[0]), frames[1..])
  }

  predicate AllAnomalous(frames: seq<FrameResult>)
  {
    forall i :: 0 <= i < |frames| ==> frames[i].rawLabel != Normal
  }

  lemma {:induction false} RunAppend(s: StabilizerState, a: seq<FrameResult>, b: seq<FrameResult>)
    ensures Run(s, a + b) == Run(Run(s, a), b)
    decreases |a|
  {
    if a != [] {
      assert (a + b)[1..] == a[1..] + b;
      RunAppend(Stabilize(s, a[0]), a[1..], b);
    } else {
      assert a + b == b;
    }
  }

  lemma {:induction false} RunKeepsConsistent(s: StabilizerState, frames: seq<FrameResult>)
    requires Consistent(s)
    ensures Consistent(Run(s, frames))
    decreases |frames|
  {
    if frames != [] {
      RunKeepsConsistent(Stabilize(s, frames[0]), frames[1..]);
    }
  }

  /** The counter is not capped: each anomalous frame adds one. */
  lemma {:induction false} AnomalousRunCounts(s: StabilizerState, frames: seq<FrameResult>)
    requires AllAnomalous(frames)
    ensures Run(s, frames).counter == s.counter + |frames|
    decreases |frames|
  {
    if frames != [] {
      assert AllAnomalous(frames[1..]) by {
        forall i | 0 <= i < |frames[1..]| ensures frames[1..][i].rawLabel != Normal {
          assert frames[1..][i] == frames[i + 1];
        }
      }
      AnomalousRunCounts(Stabilize(s, frames[0]), frames[1..]);
    }
  }

  /** Anomalous frames that do not bring the counter to the confirmation threshold leave the shown label alone. */
  lemma {:induction false} ShortRunHolds(s: StabilizerState, frames: seq<FrameResult>)
    requires AllAnomalous(frames)
    requires s.counter + |frames| < TEMPORAL_FRAMES
    ensures Run(s, frames).finalLabel == s.finalLabel
    decreases |frames|
  {
    if frames != [] {
      assert AllAnomalous(frames[1..]) by {
        forall i | 0 <= i < |frames[1..]| ensures frames[1..][i].rawLabel != Normal {
          assert frames[1..][i] == frames[i + 1];
        }
      }
      ShortRunHolds(Stabilize(s, frames[0]), frames[1..]);
    }
  }

  /**
   * From the reset state, the first two anomalous frames (of any labels) leave
   * NORMAL shown.
   */
  lemma FirstTwoAnomaliesShowNormal(frames: seq<FrameResult>)
    requires AllAnomalous(frames) && |frames| <= 2
    ensures Run(RESET, frames) == StabilizerState(|frames|, Normal)
  {
    AnomalousRunCounts(RESET, frames);
    ShortRunHolds(RESET, frames);
  }

  /**
   * Once a run of anomalous frames reaches the threshold, a last frame without
   * collision risk commits that frame's label, whatever the earlier labels were.
   */
  lemma RunCommitsLastLabel(s: StabilizerState, frames: seq<FrameResult>)
    requires AllAnomalous(frames) && |frames| > 0
    requires s.counter + |frames| >= TEMPORAL_FRAMES
    requires !frames[|frames| - 1].risk
    ensures Run(s, frames).finalLabel == frames[|frames| - 1].rawLabel
  {
    var n := |frames|;
    var front := frames[..n - 1];
    assert frames == front + [frames[n - 1]];
    assert AllAnomalous(front) by {
      forall i | 0 <= i < |front| ensures front[i].rawLabel != Normal {
        assert front[i] == frames[i];
      }
    }
    RunAppend(s, front, [frames[n - 1]]);
    AnomalousRunCounts(s, front);
    assert [frames[n - 1]][1..] == [];
  }

  /**
   * After a NORMAL frame the shown label is NORMAL until three further
   * anomalous frames have arrived.
   */
  lemma NormalFrameDebounces(s: StabilizerState, before: seq<FrameResult>, normal: FrameResult, after: seq<FrameResult>)
    requires normal.rawLabel == Normal
    requires AllAnomalous(after) && |after| < TEMPORAL_FRAMES
    ensures Run(s, before + [normal] + after) == StabilizerState(|after|, Normal)
  {
    RunAppend(s, before + [normal], after);
    RunAppend(s, before, [normal]);
    assert [normal][1..] == [];
    AnomalousRunCounts(RESET, after);
    ShortRunHolds(RESET, after);
  }

  /**
   * A newly shown anomaly label was the raw label of one of the frames, on a
   * frame without collision risk.
   */
  lemma {:induction false} ShownLabelWasObserved(s: StabilizerState, frames: seq<FrameResult>)
    requires Run(s, frames).finalLabel != s.finalLabel
    requires Run(s, frames).finalLabel != Normal
    ensures exists i :: 0 <= i < |frames| && frames[i].rawLabel == Run(s, frames).finalLabel && !frames[i].risk
    decreases |frames|
  {
    var t := Stabilize(s, frames[0]);
    var last := Run(s, frames).finalLabel;
    assert Run(s, frames) == Run(t, frames[1..]);
    if t.finalLabel == last {
      assert frames[0].rawLabel == last && !frames[0].risk;
    } else {
      ShownLabelWasObserved(t, frames[1..]);
      var i :| 0 <= i < |frames[1..]| && frames[1..][i].rawLabel == last && !frames[1..][i].risk;
      assert frames[i + 1] == frames[1..][i];
    }
  }

  /**
   * Three anomalous frames with three different labels commit the third label:
   * the run counts anomalous frames, not repetitions of one label.
   */
  lemma MixedLabelsCommit()
    ensures Run(RESET, [FrameResult(Turn, false), FrameResult(Pothole, false), FrameResult(CrackRough, false)])
      == StabilizerState(3, CrackRough)
  {
  }
}
