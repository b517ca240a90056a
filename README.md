# Road anomaly detection: the per-frame decision, modelled in Dafny

The road monitor reads a camera, crops the lower part of each frame, extracts
texture, contour and optical-flow features, classifies the frame as NORMAL,
TURN, POTHOLE, CRACK / ROUGH or SPEED BREAKER, raises a collision-risk flag
from a time-to-collision estimate, and debounces the label over frames before
showing it. This project models the deterministic decision logic of that loop,
taking the image features as given real-valued inputs:

- `Config` — the threshold constants and the day/night sensitivity profile.
- `Geometry` — the choice of the dominant contour (the first of the largest),
  the strict `area > min_area` gate, the aspect ratio and the
  epsilon-guarded solidity.
- `Motion` — the fast-pixel filter, the mean radial expansion, the time to
  collision (`None` stands for an infinite one) and the risk flag; with no
  previous frame the mean flow is 0 and the time to collision infinite.
- `Classifier` — the ordered if/elif chain, and a first-match evaluation of
  the rule list that it is proved equal to.
- `Stabilizer` — the run counter and the shown label as a pure transition,
  with lemmas over sequences of frames.
- `Pipeline` — the decision on one frame (`AnalyzeFrame`) and the class
  `RoadMonitor`, whose fields are the three variables the main loop keeps
  across iterations (whether a previous grey frame is held, `counter`,
  `final_label`), with `ProcessFrame` for one loop iteration and
  `StreamStalled` for the reconnect branch.
- `Texture` — the per-pixel term of the texture score (see Findings).

The model follows the code where a per-label reading would be natural: the
run counter counts every non-NORMAL frame, whatever its label, so three
anomalous frames with three different labels show the third label
(`Stabilizer.MixedLabelsCommit`), and the counter is never capped. The code
also has no check that the previous grey frame has the size of the current
one, and a stall clears only the previous frame, not the counter or the shown
label; the model does the same.

## Model

| member | source | states |
|---|---|---|
| Config.SelectProfile | Project_code/road_anomaly_detection.py:89-96 | night gives (15.0, 1.2, 150), day gives the global (40.0, 0.7, 300); all positive; night is more sensitive in every field |
| Geometry.LargestIndex | Project_code/road_anomaly_detection.py:117-118 | the chosen contour has the largest area and every earlier contour is strictly smaller (first maximum wins) |
| Geometry.DominantContour | Project_code/road_anomaly_detection.py:115-121 | geometry qualifies iff some contour has area strictly above min_area; the qualifying contour is the largest and, among equally large ones, the first |
| Geometry.AspectRatio | Project_code/road_anomaly_detection.py:123-124 | ratio times height is width, never negative, and above 3.0 exactly when width exceeds three heights |
| Geometry.Solidity | Project_code/road_anomaly_detection.py:126-128 | solidity times (hull area + 1e-5) is the area, never negative, below 1 when the contour is no larger than its hull |
| Motion.Expansions | Project_code/road_anomaly_detection.py:161-162 | every pixel faster than min_flow_mag contributes its radial value, every kept value comes from such a pixel, non-empty iff such a pixel exists |
| Motion.ExpansionsInOrder | Project_code/road_anomaly_detection.py:161-162 | the kept values are the radial values of exactly the fast pixels, each once, in increasing pixel order (so the mean averages each fast pixel once) |
| Motion.Mean | Project_code/road_anomaly_detection.py:165 | mean times count is the sum; positive iff the sum is |
| Motion.TimeToCollision | Project_code/road_anomaly_detection.py:161-167 | finite iff some pixel is fast and the mean expansion is positive; then positive and the reciprocal of the mean |
| Motion.Estimate | Project_code/road_anomaly_detection.py:135-170 | with no previous frame mean flow 0, infinite ttc, no risk; otherwise the field's mean flow and ttc; risk iff ttc is finite and below the threshold |
| Motion.FiniteTtcNeedsExpandingPixel | Project_code/road_anomaly_detection.py:161-167 | a finite ttc implies a fast pixel moving away from the centre |
| Motion.UniformExpansionHasFiniteTtc | Project_code/road_anomaly_detection.py:161-167 | if some pixel is fast and every fast pixel expands, ttc is finite |
| Motion.StillFieldHasInfiniteTtc | Project_code/road_anomaly_detection.py:161-164 | if no pixel is faster than min_flow_mag, ttc is infinite |
| Motion.RiskIffFastExpansion | Project_code/road_anomaly_detection.py:164-170 | risk iff the mean expansion of the fast pixels exceeds 1 / ttc_threshold |
| Classifier.FirstMatch | Project_code/road_anomaly_detection.py:176-186 | NORMAL iff no rule fires; otherwise the verdict of a firing rule with no earlier rule firing |
| Classifier.Classify | Project_code/road_anomaly_detection.py:176-186 | each label iff its rule fires and every earlier rule fails; NORMAL iff no rule fires |
| Classifier.ClassifyIsFirstMatch | Project_code/road_anomaly_detection.py:176-186 | the chain equals first-match over TURN, POTHOLE, CRACK/ROUGH, SPEED BREAKER |
| Classifier.PotholeOutranksCrack | Project_code/road_anomaly_detection.py:179-183 | the pothole and crack rules can both fire; the chain then says POTHOLE |
| Classifier.NoFlowNoTurn | Project_code/road_anomaly_detection.py:176-177 | mean flow at most 1.2 never gives TURN |
| Stabilizer.Stabilize | Project_code/road_anomaly_detection.py:188-195 | NORMAL resets to counter 0 and shown NORMAL (risk or not); an anomaly adds one; with risk or a short run the shown label is held; a run of 3 without risk shows the raw label; a shown anomaly always has counter at least 3 |
| Stabilizer.RunKeepsConsistent | Project_code/road_anomaly_detection.py:188-195 | over any frames, a shown anomaly label comes with a counter of at least 3 |
| Stabilizer.AnomalousRunCounts | Project_code/road_anomaly_detection.py:188-189 | n anomalous frames raise the counter by exactly n (no cap) |
| Stabilizer.ShortRunHolds | Project_code/road_anomaly_detection.py:188-195 | anomalous frames keeping the counter below 3 leave the shown label unchanged |
| Stabilizer.FirstTwoAnomaliesShowNormal | Project_code/road_anomaly_detection.py:188-195 | from the reset state, up to two anomalous frames of any labels leave NORMAL shown |
| Stabilizer.RunCommitsLastLabel | Project_code/road_anomaly_detection.py:194-195 | a run reaching 3 whose last frame has no risk shows that frame's label |
| Stabilizer.NormalFrameDebounces | Project_code/road_anomaly_detection.py:188-195 | after a NORMAL frame, fewer than 3 anomalous frames leave NORMAL shown with the counter equal to their number |
| Stabilizer.ShownLabelWasObserved | Project_code/road_anomaly_detection.py:194-195 | a newly shown anomaly label was the raw label of some frame without collision risk |
| Stabilizer.MixedLabelsCommit | Project_code/road_anomaly_detection.py:188-195 | TURN, POTHOLE, CRACK/ROUGH without risk show CRACK/ROUGH on the third frame |
| Pipeline.AnalyzeFrame | Project_code/road_anomaly_detection.py:86-186 | no qualifying geometry gives NORMAL and no risk; no previous frame gives no TURN and no risk; risk iff geometry qualifies, a previous frame exists and ttc is below the threshold; the label is the chain's verdict on the contour's features |
| Pipeline.RoadMonitor.constructor | Project_code/road_anomaly_detection.py:53-55 | no previous frame, counter 0, NORMAL shown |
| Pipeline.RoadMonitor.ProcessFrame | Project_code/road_anomaly_detection.py:86-197 | returns the frame's raw label and risk under the mode's profile, applies the stabiliser transition, keeps the invariant, and leaves a previous frame held |
| Pipeline.RoadMonitor.StreamStalled | Project_code/road_anomaly_detection.py:74-80 | clears the previous frame and nothing else, keeping the invariant |
| Pipeline.ThreeFrames | Project_code/road_anomaly_detection.py:67-197 | three loop iterations with a stall before the third show the label the stabiliser's run gives, the first and third without flow |
| Pipeline.PotholeScenario | Project_code/road_anomaly_detection.py:115-186 | a 400-pixel concave contour on texture 200 without a previous frame is POTHOLE without risk |
| Pipeline.CrackScenario | Project_code/road_anomaly_detection.py:115-186 | a contour four times wider than high on texture 150 is CRACK/ROUGH |
| Pipeline.CollisionSuppressesCommit | Project_code/road_anomaly_detection.py:135-195 | a ttc of 0.5 under the day profile raises risk, and the third frame of the run does not commit |
| Texture.SquaredDeviationAsWritten | Project_code/road_anomaly_detection.py:104-107 | the computed term is the squared difference reduced modulo 256 |
| Texture.SquaredDeviation | Project_code/road_anomaly_detection.py:104-107 | the true term is zero iff the pixel equals its mean and at most 255 squared |
| Texture.SquaredDeviationMonotone | Project_code/road_anomaly_detection.py:106 | the true term grows with the distance from the mean |
| Texture.AsWrittenKeepsLowBits | Project_code/road_anomaly_detection.py:106 | the computed term is the true term modulo 256 |
| Texture.AsWrittenLosesDeviation | Project_code/road_anomaly_detection.py:106 | a deviation of 16 computes as 0, below a deviation of 1 |

## Left out

- Frame acquisition, the GStreamer pipeline, grab/read, release, sleep and reconnect (lines 28-48, 69-80): I/O. Only the effect of a stall on the kept state is modelled.
- The night enhancement `enhance_single_image` (line 84): it lives in a module that is not part of this model; the features it affects are inputs.
- The crop to the lower 60% of rows, grey conversion, CLAHE and Gaussian blur (lines 98-104): OpenCV image numerics.
- The box-filtered texture score, Canny, `findContours`, `contourArea`, `convexHull`, `boundingRect`, the Sobel angle variance and Farneback optical flow (lines 105-113, 119, 123, 126-133, 140-150): foreign floating-point library calls. Their results are inputs: the texture score, the angle variance, one record per contour (area, bounding-box width and height, hull area), the mean horizontal flow, and one (magnitude, radial) pair per pixel.
- The radial-flow construction from the pixel grid, with its `+1e-4` centre guard (lines 152-159): floating-point geometry; the per-pixel radial values are inputs.
- Drawing, `imshow`, the keyboard (quit and night toggle) and the FPS timer (lines 171-174, 199-224): UI and clock.
- Floating point: all quantities are exact reals, so rounding in the divisions for aspect ratio, solidity, mean and reciprocal is not modelled.
- The texture score: the box filters and the mean around the per-pixel term of the Findings stay outside the model, so the score the classifier reads is an input and is not computed from the corrected term.

## Findings

| source | as written | input that shows it | evidently intended | confidence | as-written member | corrected member |
|---|---|---|---|---|---|---|
| Project_code/road_anomaly_detection.py:106 | `(blur - mean) ** 2` on two 8-bit images: the difference and the square wrap modulo 256, so each term is at most 255 | a pixel at 16 above its local mean gives (16)² = 256, computed as 0; a pixel at 1 above gives 1 | the true squared deviation, which grows with the deviation | high; not executed | Texture.SquaredDeviationAsWritten (shown by Texture.AsWrittenLosesDeviation) | Texture.SquaredDeviation (Texture.SquaredDeviationMonotone) |
