/** The fixed thresholds of the monitor and the day/night sensitivity profiles. */
module Config {

  const VAR_POTHOLE: real := 180.0
  const VAR_CRACK: real := 120.0
  const VAR_SPEED: real := 120.0

  const MIN_AREA: int := 300
  const SPEED_AREA: real := 8000.0

  const TURN_ANGLE_VAR: real := 0.8
  const TURN_FLOW: real := 1.2

  const TEMPORAL_FRAMES: nat := 3
  const TTC_THRESHOLD: real := 0.7
  const MIN_FLOW_MAG: real := 40.0

  /** Shape thresholds written inline in the classifier chain. */
  const POTHOLE_SOLIDITY: real := 0.9
  const CRACK_ASPECT: real := 3.0

  /** The thresholds that depend on the lighting mode. */
  datatype SensitivityProfile = SensitivityProfile(minFlowMag: real, ttcThreshold: real, minArea: int)

  /**
   * The profile for the current mode. The day profile is the one the global
   * constants describe; the night profile accepts weaker motion, warns earlier
   * and accepts smaller contours.
   */
  function SelectProfile(nightMode: bool): (p: SensitivityProfile)
    ensures nightMode ==> p == SensitivityProfile(15.0, 1.2, 150)
    ensures !nightMode ==> p == SensitivityProfile(MIN_FLOW_MAG, TTC_THRESHOLD, MIN_AREA)
    ensures p.minFlowMag > 0.0 && p.ttcThreshold > 0.0 && p.minArea > 0
    ensures nightMode ==> p.minFlowMag < MIN_FLOW_MAG && p.ttcThreshold > TTC_THRESHOLD && p.minArea < MIN_AREA
  {
    if nightMode then SensitivityProfile(15.0, 1.2, 150)
    else SensitivityProfile(40.0, 0.7, 300)
  }
}
