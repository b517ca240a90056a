/** The dominant contour of the region of interest and its shape descriptors. */
module Geometry {
  import opened Basics
  import opened Config

  /** Guard added to the hull area so that a degenerate hull never divides by zero. */
  const HULL_EPSILON: real := 0.00001

  /**
   * One external contour as the extractor measures it: its enclosed area, the
   * width and height of its bounding box and the area of its convex hull.
   */
  datatype Contour = Contour(area: NonNegReal, width: nat, height: Positive, hullArea: NonNegReal)

  /**
   * Index of the contour with the largest area, scanning left to right and
   * replacing the candidate only on a strictly larger area, so the first of
   * several equally large contours wins.
   */
  function LargestIndex(cs: seq<Contour>): (k: nat)
    requires |cs| > 0
    ensures k < |cs|
    ensures forall j :: 0 <= j < |cs| ==> cs[j].area <= cs[k].area
    ensures forall j :: 0 <= j < k ==> cs[j].area < cs[k].area
  {
    if |cs| == 1 then 0
    else
      var k := LargestIndex(cs[..|cs| - 1]);
      if cs[|cs| - 1].area > cs[k].area then |cs| - 1 else k
  }

  /** Contour `k` has the largest area and every contour before it is strictly smaller. */
  ghost predicate FirstLargestAt(cs: seq<Contour>, k: int)
  {
    0 <= k < |cs| &&
    (forall j :: 0 <= j < |cs| ==> cs[j].area <= cs[k].area) &&
    (forall j :: 0 <= j < k ==> cs[j].area < cs[k].area)
  }

  /**
   * The contour that qualifies as anomaly geometry: the largest one, when
   * there is any contour and its area exceeds the profile's minimum strictly.
   */
  function DominantContour(cs: seq<Contour>, minArea: int): (r: Option<Contour>)
    ensures r.Some? <==> exists j :: 0 <= j < |cs| && cs[j].area > minArea as real
    ensures r.Some? ==> r.value in cs && forall j :: 0 <= j < |cs| ==> cs[j].area <= r.value.area
    ensures r.Some? ==> exists k :: FirstLargestAt(cs, k) && r.value == cs[k]
  {
    if |cs| == 0 then None
    else
      var c := cs[LargestIndex(cs)];
      if c.area > minArea as real then Some(c) else None
  }

  /** Width over height of the bounding box; above the crack bound exactly when the box is more than three times wider than high. */
  function AspectRatio(width: nat, height: Positive): (r: real)
    ensures r >= 0.0
    ensures r * height as real == width as real
    ensures r > CRACK_ASPECT <==> width > 3 * height
  {
    var r := width as real / height as real;
    AboveIffScaledAbove(r, height as real, CRACK_ASPECT);
    assert r * height as real == width as real;
    assert CRACK_ASPECT * height as real == (3 * height) as real;
    r
  }

  /** Multiplying both sides by a positive factor keeps a strict comparison. */
  lemma AboveIffScaledAbove(r: real, h: real, bound: real)
    requires h > 0.0
    ensures r > bound <==> r * h > bound * h
  {
  }

  /**
   * Contour area over the epsilon-guarded hull area. A contour never larger
   * than its hull has solidity below one; a zero hull still gives a finite value.
   */
  function Solidity(area: NonNegReal, hullArea: NonNegReal): (r: real)
    ensures r >= 0.0
    ensures r * (hullArea + HULL_EPSILON) == area
    ensures area <= hullArea ==> r < 1.0
  {
    area / (hullArea + HULL_EPSILON)
  }
}
