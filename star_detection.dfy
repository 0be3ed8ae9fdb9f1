/**
 * Star detection (AstroStacker.detect_stars) after OpenCV has done its part:
 * the grey conversion, the blur, the binary threshold and findContours are
 * library calls that hand back one record of area and moments per external
 * contour.  What the stacker itself decides is modelled here: which contours
 * are stars, where their centroids are, and, when there are too many, which
 * brightest ones are kept.
 */
module StarDetection {
  import opened Common
  import opened Sorting

  /** A luminance plane: rows of 8-bit samples, all rows of one length. */
  type Gray = g: seq<seq<Byte>> | Rectangular(g)

  /** What contourArea and moments report for one external contour. */
  datatype Contour = Contour(area: real, m00: real, m10: real, m01: real)

  /** A star position in pixels, x along a row and y down the rows. */
  datatype Point = Point(x: real, y: real)

  /** A contour whose area is inside the inclusive bounds and whose zeroth
      moment is not zero. */
  predicate IsStar(c: Contour, minArea: real, maxArea: real) {
    minArea <= c.area <= maxArea && c.m00 != 0.0
  }

  function Centroid(c: Contour): Point
    requires c.m00 != 0.0
  {
    Point(c.m10 / c.m00, c.m01 / c.m00)
  }

  /** The centroids of the contours that pass the filter, in contour order. */
  function Candidates(cs: seq<Contour>, minArea: real, maxArea: real): (pts: seq<Point>)
    ensures |pts| <= |cs|
  {
    if cs == [] then []
    else
      var c := cs[|cs| - 1];
      Candidates(cs[..|cs| - 1], minArea, maxArea)
        + (if IsStar(c, minArea, maxArea) then [Centroid(c)] else [])
  }

  /** Every candidate is the centroid of a contour that passes the filter. */
  lemma {:induction false} CandidatesSound(cs: seq<Contour>, minArea: real, maxArea: real)
    ensures forall p :: p in Candidates(cs, minArea, maxArea) ==>
      exists j :: 0 <= j < |cs| && IsStar(cs[j], minArea, maxArea) && p == Centroid(cs[j])
  {
    if cs != [] {
      var n := |cs| - 1;
      CandidatesSound(cs[..n], minArea, maxArea);
      forall p | p in Candidates(cs, minArea, maxArea)
        ensures exists j :: 0 <= j < |cs| && IsStar(cs[j], minArea, maxArea) && p == Centroid(cs[j])
      {
        if p in Candidates(cs[..n], minArea, maxArea) {
          var j :| 0 <= j < n && IsStar(cs[..n][j], minArea, maxArea) && p == Centroid(cs[..n][j]);
          assert cs[j] == cs[..n][j];
        } else {
          assert IsStar(cs[n], minArea, maxArea) && p == Centroid(cs[n]);
        }
      }
    }
  }

  /** Every contour that passes the filter contributes its centroid. */
  lemma {:induction false} CandidatesComplete(cs: seq<Contour>, minArea: real, maxArea: real, j: nat)
    requires j < |cs| && IsStar(cs[j], minArea, maxArea)
    ensures Centroid(cs[j]) in Candidates(cs, minArea, maxArea)
  {
    var n := |cs| - 1;
    if j < n {
      CandidatesComplete(cs[..n], minArea, maxArea, j);
    }
  }

  /** A star pixel with its grey value, as the tuple (brightness, (x, y)). */
  datatype Ranked = Ranked(brightness: int, x: int, y: int)

  /** The order of sort(reverse=True) on (brightness, (x, y)) tuples:
      a comes first when it is lexicographically at least b. */
  function BrightFirst(a: Ranked, b: Ranked): bool {
    a.brightness > b.brightness
    || (a.brightness == b.brightness && (a.x > b.x || (a.x == b.x && a.y >= b.y)))
  }

  lemma BrightFirstIsTotalOrder()
    ensures TotalOrder(BrightFirst)
  {
  }

  /** The candidates whose truncated position lies inside the plane, with
      the grey value there; the others are dropped. */
  function RankedOf(pts: seq<Point>, gray: Gray): (r: seq<Ranked>)
    ensures |r| <= |pts|
    ensures forall k :: 0 <= k < |r| ==>
      0 <= r[k].x < Width(gray) && 0 <= r[k].y < |gray| && r[k].brightness == gray[r[k].y][r[k].x]
  {
    if pts == [] then []
    else
      var p := pts[|pts| - 1];
      var x, y := Trunc(p.x), Trunc(p.y);
      RankedOf(pts[..|pts| - 1], gray)
        + (if 0 <= x < Width(gray) && 0 <= y < |gray| then [Ranked(gray[y][x], x, y)] else [])
  }

  /** Every ranked pixel is the truncated position of some candidate. */
  lemma {:induction false} RankedFromCandidates(pts: seq<Point>, gray: Gray)
    ensures forall q :: q in RankedOf(pts, gray) ==>
      exists k :: 0 <= k < |pts| && q.x == Trunc(pts[k].x) && q.y == Trunc(pts[k].y)
  {
    if pts != [] {
      var n := |pts| - 1;
      RankedFromCandidates(pts[..n], gray);
      forall q | q in RankedOf(pts, gray)
        ensures exists k :: 0 <= k < |pts| && q.x == Trunc(pts[k].x) && q.y == Trunc(pts[k].y)
      {
        if q in RankedOf(pts[..n], gray) {
          var k :| 0 <= k < n && q.x == Trunc(pts[..n][k].x) && q.y == Trunc(pts[..n][k].y);
          assert pts[k] == pts[..n][k];
        } else {
          assert q.x == Trunc(pts[n].x) && q.y == Trunc(pts[n].y);
        }
      }
    }
  }

  /** The ranked pixels in the order of sort(reverse=True). */
  function BrightestFirst(pts: seq<Point>, gray: Gray): (r: seq<Ranked>)
    ensures multiset(r) == multiset(RankedOf(pts, gray))
  {
    Sort(RankedOf(pts, gray), BrightFirst)
  }

  /** The (x, y) of each ranked pixel, as a star position. */
  function Positions(r: seq<Ranked>): (pts: seq<Point>)
    ensures |pts| == |r|
    ensures forall k :: 0 <= k < |r| ==> pts[k] == Point(r[k].x as real, r[k].y as real)
  {
    seq(|r|, k requires 0 <= k < |r| => Point(r[k].x as real, r[k].y as real))
  }

  /** detect_stars once the contours are known: the filtered centroids, or,
      when there are more than maxFeatures of them, the positions of the
      first maxFeatures in-plane pixels in descending brightness order (a
      Python slice, so a negative maxFeatures drops from the end). */
  function StarsOf(cs: seq<Contour>, gray: Gray, minArea: real, maxArea: real, maxFeatures: int)
    : seq<Point>
  {
    var cands := Candidates(cs, minArea, maxArea);
    if |cands| > maxFeatures then Positions(PyPrefix(BrightestFirst(cands, gray), maxFeatures))
    else cands
  }

  /** A non-negative maxFeatures bounds the number of stars. */
  lemma StarsBounded(cs: seq<Contour>, gray: Gray, minArea: real, maxArea: real, maxFeatures: int)
    requires maxFeatures >= 0
    ensures |StarsOf(cs, gray, minArea, maxArea, maxFeatures)| <= maxFeatures
  {
  }

  /** Below the limit, the stars are exactly the filtered centroids. */
  lemma StarsUnderLimitAreCandidates(cs: seq<Contour>, gray: Gray, minArea: real, maxArea: real,
                                     maxFeatures: int, j: nat)
    requires |Candidates(cs, minArea, maxArea)| <= maxFeatures
    requires j < |cs| && IsStar(cs[j], minArea, maxArea)
    ensures Centroid(cs[j]) in StarsOf(cs, gray, minArea, maxArea, maxFeatures)
    ensures forall p :: p in StarsOf(cs, gray, minArea, maxArea, maxFeatures) ==>
      exists i :: 0 <= i < |cs| && IsStar(cs[i], minArea, maxArea) && p == Centroid(cs[i])
  {
    CandidatesComplete(cs, minArea, maxArea, j);
    CandidatesSound(cs, minArea, maxArea);
  }

  /** Every pixel of the sorted list lies inside the plane, carries the grey
      value there and comes from a candidate; brighter pixels come first. */
  lemma BrightestFirstFacts(pts: seq<Point>, gray: Gray)
    ensures var sorted := BrightestFirst(pts, gray);
      && (forall k :: 0 <= k < |sorted| ==>
            && 0 <= sorted[k].x < Width(gray) && 0 <= sorted[k].y < |gray|
            && sorted[k].brightness == gray[sorted[k].y][sorted[k].x]
            && exists i :: 0 <= i < |pts| && sorted[k].x == Trunc(pts[i].x)
                                           && sorted[k].y == Trunc(pts[i].y))
      && (forall k, d :: 0 <= k < d < |sorted| ==> sorted[k].brightness >= sorted[d].brightness)
  {
    var ranked := RankedOf(pts, gray);
    var sorted := BrightestFirst(pts, gray);
    BrightFirstIsTotalOrder();
    SortSorted(ranked, BrightFirst);
    RankedFromCandidates(pts, gray);
    forall k | 0 <= k < |sorted|
      ensures 0 <= sorted[k].x < Width(gray) && 0 <= sorted[k].y < |gray|
      ensures sorted[k].brightness == gray[sorted[k].y][sorted[k].x]
      ensures exists i :: 0 <= i < |pts| && sorted[k].x == Trunc(pts[i].x)
                                         && sorted[k].y == Trunc(pts[i].y)
    {
      assert sorted[k] in multiset(ranked);
      var m :| 0 <= m < |ranked| && ranked[m] == sorted[k];
      assert sorted[k] in RankedOf(pts, gray);
    }
  }

  /** Above the limit, the stars kept are the first maxFeatures pixels of the
      sorted list: whole-pixel positions inside the plane, each taken from a
      candidate, and each at least as bright as every in-plane candidate pixel
      that was dropped. */
  lemma BrightestAreKept(cs: seq<Contour>, gray: Gray, minArea: real, maxArea: real, maxFeatures: int)
    requires maxFeatures >= 0
    requires |Candidates(cs, minArea, maxArea)| > maxFeatures
    ensures var cands := Candidates(cs, minArea, maxArea);
      var sorted := BrightestFirst(cands, gray);
      var stars := StarsOf(cs, gray, minArea, maxArea, maxFeatures);
      && |stars| == (if maxFeatures <= |sorted| then maxFeatures else |sorted|)
      && (forall k :: 0 <= k < |stars| ==>
            && stars[k] == Point(sorted[k].x as real, sorted[k].y as real)
            && 0 <= sorted[k].x < Width(gray) && 0 <= sorted[k].y < |gray|
            && sorted[k].brightness == gray[sorted[k].y][sorted[k].x]
            && exists i :: 0 <= i < |cands| && sorted[k].x == Trunc(cands[i].x)
                                               && sorted[k].y == Trunc(cands[i].y))
      && (forall k, d :: 0 <= k < |stars| <= d < |sorted| ==>
            sorted[k].brightness >= sorted[d].brightness)
  {
    var cands := Candidates(cs, minArea, maxArea);
    var sorted := BrightestFirst(cands, gray);
    BrightestFirstFacts(cands, gray);
    var prefix := PyPrefix(sorted, maxFeatures);
    assert StarsOf(cs, gray, minArea, maxArea, maxFeatures) == Positions(prefix);
    assert forall k :: 0 <= k < |prefix| ==> prefix[k] == sorted[k];
  }

  /** The loops of detect_stars: the contour filter, then (above the limit)
      the brightness lookup, the descending sort and the slice. */
  method DetectStarsIn(cs: seq<Contour>, gray: Gray, minArea: real, maxArea: real, maxFeatures: int)
    returns (stars: seq<Point>)
    ensures stars == StarsOf(cs, gray, minArea, maxArea, maxFeatures)
  {
    stars := [];
    var i := 0;
    while i < |cs|
      invariant 0 <= i <= |cs|
      invariant stars == Candidates(cs[..i], minArea, maxArea)
    {
      var c := cs[i];
      if minArea <= c.area <= maxArea {
        if c.m00 != 0.0 {
          stars := stars + [Point(c.m10 / c.m00, c.m01 / c.m00)];
        }
      }
      assert cs[..i + 1][..i] == cs[..i];
      i := i + 1;
    }
    assert cs[..i] == cs;
    if |stars| > maxFeatures {
      var ranked: seq<Ranked> := [];
      var k := 0;
      while k < |stars|
        invariant 0 <= k <= |stars|
        invariant ranked == RankedOf(stars[..k], gray)
      {
        var x, y := Trunc(stars[k].x), Trunc(stars[k].y);
        if 0 <= x < Width(gray) && 0 <= y < |gray| {
          ranked := ranked + [Ranked(gray[y][x], x, y)];
        }
        assert stars[..k + 1][..k] == stars[..k];
        k := k + 1;
      }
      assert stars[..k] == stars;
      var sorted := Sort(ranked, BrightFirst);
      stars := Positions(PyPrefix(sorted, maxFeatures));
    }
  }
}
