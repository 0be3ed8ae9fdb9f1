/**
 * Star matching (AstroStacker.match_stars): each reference star is paired
 * with the nearest star of the current frame when that one is closer than
 * 100 pixels, and the pairs are handed to OpenCV's RANSAC estimate of a
 * partial affine transform.  The estimate itself is a library call and is a
 * parameter here.
 */
module StarMatching {
  import opened Common
  import opened StarDetection

  /** A 2x3 affine matrix [[a, b, tx], [c, d, ty]]. */
  datatype Affine = Affine(a: real, b: real, tx: real, c: real, d: real, ty: real)

  /** The RANSAC estimate: from source points, target points and the
      reprojection threshold to a matrix, or None when it finds none. */
  type Estimator = (seq<Point>, seq<Point>, real) -> Option<Affine>

  /** Pairs farther apart than this many pixels are not matched. */
  const MaxMatchDistance: real := 100.0

  /** The fewest stars in either list, and the fewest pairs, that matching
      accepts. */
  const MinStars: nat := 3

  /** The squared Euclidean distance.  The source compares norms; since the
      square root is monotone, comparing squares gives the same answers. */
  function DistSq(p: Point, q: Point): real {
    (p.x - q.x) * (p.x - q.x) + (p.y - q.y) * (p.y - q.y)
  }

  /** The index of the first star of cur at the least distance from r. */
  function Nearest(r: Point, cur: seq<Point>): (j: nat)
    requires |cur| > 0
    ensures j < |cur|
  {
    if |cur| == 1 then 0
    else
      var j := Nearest(r, cur[..|cur| - 1]);
      if DistSq(r, cur[|cur| - 1]) < DistSq(r, cur[j]) then |cur| - 1 else j
  }

  /** Nearest is a minimum, and the first one: every earlier star is
      strictly farther. */
  lemma {:induction false} NearestIsFirstMinimum(r: Point, cur: seq<Point>)
    requires |cur| > 0
    ensures forall k :: 0 <= k < |cur| ==> DistSq(r, cur[Nearest(r, cur)]) <= DistSq(r, cur[k])
    ensures forall k :: 0 <= k < Nearest(r, cur) ==> DistSq(r, cur[Nearest(r, cur)]) < DistSq(r, cur[k])
  {
    if |cur| > 1 {
      var n := |cur| - 1;
      NearestIsFirstMinimum(r, cur[..n]);
      var j := Nearest(r, cur[..n]);
      assert cur[..n][j] == cur[j];
      assert forall k :: 0 <= k < n ==> cur[..n][k] == cur[k];
    }
  }

  /** One accepted pair: an index into the reference stars and one into the
      current frame's stars. */
  datatype Pair = Pair(refIndex: nat, curIndex: nat)

  predicate Close(p: Point, q: Point) {
    DistSq(p, q) < MaxMatchDistance * MaxMatchDistance
  }

  /** The pairs the nearest-neighbour loop accepts, in reference order. */
  function Matches(refs: seq<Point>, cur: seq<Point>): (m: seq<Pair>)
    requires |cur| > 0
    ensures |m| <= |refs|
    ensures forall k :: 0 <= k < |m| ==> m[k].refIndex < |refs| && m[k].curIndex < |cur|
  {
    if refs == [] then []
    else
      var i := |refs| - 1;
      var j := Nearest(refs[i], cur);
      Matches(refs[..i], cur) + (if Close(refs[i], cur[j]) then [Pair(i, j)] else [])
  }

  /** Every pair joins a reference star to its nearest current star, within
      the distance limit. */
  lemma {:induction false} MatchesSound(refs: seq<Point>, cur: seq<Point>, k: nat)
    requires |cur| > 0 && k < |Matches(refs, cur)|
    ensures Matches(refs, cur)[k].curIndex == Nearest(refs[Matches(refs, cur)[k].refIndex], cur)
    ensures Close(refs[Matches(refs, cur)[k].refIndex], cur[Matches(refs, cur)[k].curIndex])
  {
    var i := |refs| - 1;
    var m0 := Matches(refs[..i], cur);
    if k < |m0| {
      MatchesSound(refs[..i], cur, k);
      assert Matches(refs, cur)[k] == m0[k];
      assert refs[..i][m0[k].refIndex] == refs[m0[k].refIndex];
    }
  }

  /** The pairs follow the reference order, one pair per reference star at
      most. */
  lemma {:induction false} MatchesOrdered(refs: seq<Point>, cur: seq<Point>, k: nat, l: nat)
    requires |cur| > 0 && k < l < |Matches(refs, cur)|
    ensures Matches(refs, cur)[k].refIndex < Matches(refs, cur)[l].refIndex
  {
    var i := |refs| - 1;
    var m0 := Matches(refs[..i], cur);
    assert Matches(refs, cur)[k] == m0[k];
    if l < |m0| {
      MatchesOrdered(refs[..i], cur, k, l);
      assert Matches(refs, cur)[l] == m0[l];
    }
  }

  /** Every reference star whose nearest current star is close enough has
      its pair. */
  lemma {:induction false} MatchesComplete(refs: seq<Point>, cur: seq<Point>, i: nat)
    requires |cur| > 0 && i < |refs|
    requires Close(refs[i], cur[Nearest(refs[i], cur)])
    ensures Pair(i, Nearest(refs[i], cur)) in Matches(refs, cur)
  {
    var n := |refs| - 1;
    if i < n {
      MatchesComplete(refs[..n], cur, i);
      assert refs[..n][i] == refs[i];
    }
  }

  /** The current frame's star of each pair: the points to transform. */
  function Sources(m: seq<Pair>, cur: seq<Point>): (src: seq<Point>)
    requires forall k :: 0 <= k < |m| ==> m[k].curIndex < |cur|
    ensures |src| == |m| && forall k :: 0 <= k < |m| ==> src[k] == cur[m[k].curIndex]
  {
    seq(|m|, k requires 0 <= k < |m| => cur[m[k].curIndex])
  }

  /** The reference star of each pair: where the points should land. */
  function Targets(m: seq<Pair>, refs: seq<Point>): (dst: seq<Point>)
    requires forall k :: 0 <= k < |m| ==> m[k].refIndex < |refs|
    ensures |dst| == |m| && forall k :: 0 <= k < |m| ==> dst[k] == refs[m[k].refIndex]
  {
    seq(|m|, k requires 0 <= k < |m| => refs[m[k].refIndex])
  }

  /** match_stars: None with fewer than three stars on either side or fewer
      than three pairs; otherwise the estimate from the paired points. */
  function TransformOf(refs: seq<Point>, cur: seq<Point>, estimate: Estimator, threshold: real)
    : Option<Affine>
  {
    if |refs| < MinStars || |cur| < MinStars then None
    else
      var m := Matches(refs, cur);
      if |m| < MinStars then None
      else estimate(Sources(m, cur), Targets(m, refs), threshold)
  }

  /** A transform is only ever estimated from at least three pairs of stars
      that are each within the distance limit. */
  lemma TransformNeedsThreeClosePairs(refs: seq<Point>, cur: seq<Point>, estimate: Estimator,
                                      threshold: real)
    requires TransformOf(refs, cur, estimate, threshold).Some?
    ensures |refs| >= MinStars && |cur| >= MinStars
    ensures var m := Matches(refs, cur);
      && |m| >= MinStars
      && TransformOf(refs, cur, estimate, threshold)
         == estimate(Sources(m, cur), Targets(m, refs), threshold)
      && forall k :: 0 <= k < |m| ==> Close(Targets(m, refs)[k], Sources(m, cur)[k])
  {
    var m := Matches(refs, cur);
    forall k | 0 <= k < |m|
      ensures Close(Targets(m, refs)[k], Sources(m, cur)[k])
    {
      MatchesSound(refs, cur, k);
    }
  }

  /** The loops of match_stars: for each reference star, a scan for the
      first strictly nearest current star, kept when closer than the limit. */
  method MatchStars(refs: seq<Point>, cur: seq<Point>, estimate: Estimator, threshold: real)
    returns (t: Option<Affine>)
    ensures t == TransformOf(refs, cur, estimate, threshold)
  {
    if |refs| < MinStars || |cur| < MinStars {
      return None;
    }
    var matches: seq<Pair> := [];
    var i := 0;
    while i < |refs|
      invariant 0 <= i <= |refs|
      invariant matches == Matches(refs[..i], cur)
    {
      var r := refs[i];
      var minDist: Option<real> := None;
      var best := 0;
      var j := 0;
      while j < |cur|
        invariant 0 <= j <= |cur|
        invariant minDist.None? <==> j == 0
        invariant j > 0 ==> best == Nearest(r, cur[..j]) && minDist == Some(DistSq(r, cur[best]))
      {
        var d := DistSq(r, cur[j]);
        if minDist.None? || d < minDist.value {
          minDist := Some(d);
          best := j;
        }
        assert cur[..j + 1][..j] == cur[..j];
        j := j + 1;
      }
      assert cur[..j] == cur;
      if minDist.value < MaxMatchDistance * MaxMatchDistance {
        matches := matches + [Pair(i, best)];
      }
      assert refs[..i + 1][..i] == refs[..i];
      i := i + 1;
    }
    assert refs[..i] == refs;
    if |matches| < MinStars {
      return None;
    }
    t := estimate(Sources(matches, cur), Targets(matches, refs), threshold);
  }
}
