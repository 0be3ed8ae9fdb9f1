/**
 * The stacking engine (AstroStacker in the stacking processor): it loads the
 * frames, finds stars in each, aligns every frame to the first through the
 * star pairs, combines the aligned frames and enhances the result, reporting
 * progress on the way.  The image library calls it makes (decoding, grey
 * conversion, contour finding, the RANSAC estimate, warping, the standard
 * deviation and the PIL enhancement) are the fields of a Toolkit.
 */
module Stacker {
  import opened Common
  import Combine
  import opened StarDetection
  import opened StarMatching

  type Frame = Combine.Frame

  /** The library calls the stacker relies on. */
  datatype Toolkit = Toolkit(
    // Image.open, convert('RGB') and np.array; None when the file cannot be read
    decode: string -> Option<Frame>,
    // cvtColor(RGB2GRAY)
    luminance: Frame -> Gray,
    // GaussianBlur with the given sigma, a binary threshold at the given level,
    // findContours and the area and moments of each external contour
    contours: (Gray, real, real) -> seq<Contour>,
    // estimateAffinePartial2D with RANSAC
    estimate: Estimator,
    // warpAffine's value at one output row and sample position
    sample: (Frame, Affine, nat, nat) -> Byte,
    // np.std of one column of the stack
    std: seq<int> -> real,
    // the contrast (1.1) and sharpness (1.05) enhancement
    enhance: Frame -> Frame)

  datatype StarParams = StarParams(threshold: real, minArea: real, maxArea: real, gaussianBlur: real)
  datatype AlignParams = AlignParams(maxFeatures: int, matchThreshold: real, ransacThreshold: real)
  /** The stacking parameters; sigmaClip is the key that set_stacking_params
      adds and that nothing reads. */
  datatype StackParams = StackParams(rule: string, sigmaLow: real, sigmaHigh: real,
                                     rejectionRatio: real, sigmaClip: Option<bool>)

  const DefaultStarParams := StarParams(50.0, 3.0, 100.0, 1.5)
  const DefaultAlignParams := AlignParams(500, 0.7, 5.0)
  const DefaultStackParams := StackParams("average", 2.0, 2.0, 0.1, None)

  /** The fewest frames that loading and aligning accept. */
  const MinFrames: nat := 2
  /** The fewest stars a reference or a later frame needs to be aligned. */
  const MinAlignStars: nat := 10

  /** One loaded frame with the path it came from. */
  datatype LoadedFrame = LoadedFrame(path: string, image: Frame)

  /** A setter argument of None leaves the old value. */
  function Override<T>(current: T, given: Option<T>): (r: T)
    ensures given.Some? ==> r == given.value
    ensures given.None? ==> r == current
  {
    if given.Some? then given.value else current
  }

  // ------------------------------------------------------------ progress

  /** a / t as Python's true division. */
  function Fraction(a: nat, t: nat): real
    requires t > 0
  {
    a as real / t as real
  }

  lemma FractionAtMostOne(a: nat, t: nat)
    requires 0 < t && a <= t
    ensures 0.0 <= Fraction(a, t) <= 1.0
  {
  }

  lemma FractionMono(a: nat, b: nat, t: nat)
    requires 0 < t && a <= b
    ensures Fraction(a, t) <= Fraction(b, t)
  {
  }

  /** A progress log that never goes back and stays within [lo, hi]. */
  predicate Steps(log: seq<real>, lo: real, hi: real) {
    && (forall k :: 0 <= k < |log| ==> lo <= log[k] <= hi)
    && (forall k :: 0 < k < |log| ==> log[k - 1] <= log[k])
  }

  /** A log within [lo, mid] followed by one within [mid, hi] still steps. */
  lemma StepsJoin(a: seq<real>, b: seq<real>, lo: real, mid: real, hi: real)
    requires lo <= mid <= hi
    requires Steps(a, lo, mid) && Steps(b, mid, hi)
    ensures Steps(a + b, lo, hi)
  {
    var s := a + b;
    forall k | 0 <= k < |s|
      ensures lo <= s[k] <= hi
    {
      if k < |a| {
        assert s[k] == a[k];
      } else {
        assert s[k] == b[k - |a|];
      }
    }
    forall k | 0 < k < |s|
      ensures s[k - 1] <= s[k]
    {
      if k < |a| {
        assert s[k - 1] == a[k - 1] && s[k] == a[k];
      } else if k == |a| {
        assert s[k - 1] == a[k - 1] && s[k] == b[0];
      } else {
        assert s[k - 1] == b[k - 1 - |a|] && s[k] == b[k - |a|];
      }
    }
  }

  /** A value no smaller than the last one keeps a log stepping. */
  lemma StepsAppend(log: seq<real>, x: real, lo: real, hi: real)
    requires Steps(log, lo, hi) && lo <= x <= hi
    requires log == [] || log[|log| - 1] <= x
    ensures Steps(log + [x], lo, hi)
  {
    var s := log + [x];
    assert forall k :: 0 <= k < |log| ==> s[k] == log[k];
  }

  /** What a progress call adds to the log: the value when a callback is set,
      nothing otherwise. */
  function Report(reporting: bool, values: seq<real>): seq<real> {
    if reporting then values else []
  }

  // ------------------------------------------------------------- loading

  /** The frames load_images keeps from the first n paths: those that decode,
      in path order. */
  function LoadedUpTo(decode: string -> Option<Frame>, paths: seq<string>, n: nat): (r: seq<LoadedFrame>)
    requires n <= |paths|
    ensures |r| <= n
  {
    if n == 0 then []
    else
      LoadedUpTo(decode, paths, n - 1)
        + (match decode(paths[n - 1]) case None => [] case Some(f) => [LoadedFrame(paths[n - 1], f)])
  }

  function Loaded(decode: string -> Option<Frame>, paths: seq<string>): seq<LoadedFrame> {
    LoadedUpTo(decode, paths, |paths|)
  }

  /** Every loaded frame is the decoding of its path, and its path is one of
      the inputs. */
  lemma {:induction false} LoadedAreDecoded(decode: string -> Option<Frame>, paths: seq<string>, n: nat,
                                            k: nat)
    requires n <= |paths| && k < |LoadedUpTo(decode, paths, n)|
    ensures var f := LoadedUpTo(decode, paths, n)[k];
      f.path in paths[..n] && decode(f.path) == Some(f.image)
  {
    var prev := LoadedUpTo(decode, paths, n - 1);
    if k < |prev| {
      LoadedAreDecoded(decode, paths, n - 1, k);
      assert paths[..n - 1] <= paths[..n];
    } else {
      assert paths[n - 1] == paths[..n][n - 1];
    }
  }

  /** Every path that decodes is loaded. */
  lemma {:induction false} DecodedAreLoaded(decode: string -> Option<Frame>, paths: seq<string>, n: nat,
                                            i: nat)
    requires i < n <= |paths| && decode(paths[i]).Some?
    ensures LoadedFrame(paths[i], decode(paths[i]).value) in LoadedUpTo(decode, paths, n)
  {
    if i < n - 1 {
      DecodedAreLoaded(decode, paths, n - 1, i);
    }
  }

  /** The progress values of load_images over the first n paths: (i + 1) /
      total * 20 after each frame i that loads. */
  function LoadMarks(decode: string -> Option<Frame>, paths: seq<string>, n: nat): seq<real>
    requires n <= |paths|
  {
    if n == 0 then []
    else
      LoadMarks(decode, paths, n - 1)
        + (if decode(paths[n - 1]).Some? then [Fraction(n, |paths|) * 20.0] else [])
  }

  /** Loading reports non-decreasing values between 0 and 20, none above
      n / total * 20 after n paths. */
  lemma {:induction false} LoadMarksSteps(decode: string -> Option<Frame>, paths: seq<string>, n: nat)
    requires n <= |paths|
    ensures Steps(LoadMarks(decode, paths, n), 0.0, 20.0)
    ensures n > 0 ==> forall x :: x in LoadMarks(decode, paths, n) ==> x <= Fraction(n, |paths|) * 20.0
  {
    if n > 0 {
      var prev := LoadMarks(decode, paths, n - 1);
      var x := Fraction(n, |paths|) * 20.0;
      LoadMarksSteps(decode, paths, n - 1);
      FractionAtMostOne(n, |paths|);
      if n > 1 {
        FractionMono(n - 1, n, |paths|);
      }
      assert forall y :: y in prev ==> y <= x;
      if decode(paths[n - 1]).Some? {
        if prev != [] {
          assert prev[|prev| - 1] in prev;
        }
        StepsAppend(prev, x, 0.0, 20.0);
      }
    }
  }



  // ------------------------------------------------------------- aligning

  /** detect_stars on a frame with the current parameters. */
  function Detect(kit: Toolkit, sp: StarParams, ap: AlignParams, image: Frame): seq<Point> {
    var gray := kit.luminance(image);
    StarsOf(kit.contours(gray, sp.gaussianBlur, sp.threshold), gray, sp.minArea, sp.maxArea,
            ap.maxFeatures)
  }

  /** What aligning uses: star detection and star matching with the current
      parameters, and the warp's sampling. */
  datatype Aligner = Aligner(detect: Frame -> seq<Point>,
                             transform: (seq<Point>, seq<Point>) -> Option<Affine>,
                             sample: (Frame, Affine, nat, nat) -> Byte)

  /** The aligner of a stacker with these parameters. */
  function AlignerOf(kit: Toolkit, sp: StarParams, ap: AlignParams): Aligner {
    Aligner((f: Frame) => Detect(kit, sp, ap, f),
            (refs: seq<Point>, cur: seq<Point>) => TransformOf(refs, cur, kit.estimate, ap.ransacThreshold),
            kit.sample)
  }

  /** al aligns as the stacker with these parameters does (AlignerOf is one
      such).  Detection and matching are only unfolded where a Detect or a
      TransformOf term is already at hand. */
  ghost predicate Implements(al: Aligner, kit: Toolkit, sp: StarParams, ap: AlignParams) {
    && al.sample == kit.sample
    && (forall f {:trigger Detect(kit, sp, ap, f)} :: al.detect(f) == Detect(kit, sp, ap, f))
    && (forall refs, cur {:trigger TransformOf(refs, cur, kit.estimate, ap.ransacThreshold)} ::
          al.transform(refs, cur) == TransformOf(refs, cur, kit.estimate, ap.ransacThreshold))
  }

  lemma AlignerOfImplements(kit: Toolkit, sp: StarParams, ap: AlignParams)
    ensures Implements(AlignerOf(kit, sp, ap), kit, sp, ap)
  {
  }

  function WarpRow(sample: (Frame, Affine, nat, nat) -> Byte, image: Frame, t: Affine, i: nat, width: nat)
    : (row: seq<Byte>)
    ensures |row| == width
  {
    seq(width, j requires 0 <= j < width => sample(image, t, i, j))
  }

  /** warpAffine into an output of `rows` rows of `width` samples. */
  function Warp(sample: (Frame, Affine, nat, nat) -> Byte, image: Frame, t: Affine, rows: nat, width: nat)
    : (r: Frame)
    ensures |r| == rows && forall i :: 0 <= i < rows ==> |r[i]| == width
  {
    var out := seq(rows, i requires 0 <= i < rows => WarpRow(sample, image, t, i, width));
    assert forall i :: 0 <= i < rows ==> |out[i]| == width;
    out
  }

  /** One later frame: dropped with fewer than ten stars or without a
      transform, otherwise warped onto the reference's shape. */
  function AlignOne(al: Aligner, refStars: seq<Point>, reference: Frame, image: Frame): Option<Frame> {
    var stars := al.detect(image);
    if |stars| < MinAlignStars then None
    else
      match al.transform(refStars, stars)
      case None => None
      case Some(t) => Some(Warp(al.sample, image, t, |reference|, Width(reference)))
  }

  /** What the loop of align_images appends for frame i: the first frame as
      it is, a later one when AlignOne keeps it. */
  function AlignStep(al: Aligner, images: seq<LoadedFrame>, refStars: seq<Point>, reference: Frame,
                     i: nat): (r: seq<Frame>)
    requires i < |images|
    ensures |r| <= 1
  {
    if i == 0 then [images[0].image]
    else
      match AlignOne(al, refStars, reference, images[i].image)
      case None => []
      case Some(f) => [f]
  }

  /** The progress value the loop reports for frame i: 30 for the first,
      30 + (i + 1) / total * 40 for a later frame with enough stars, whether
      or not a transform was found, and nothing for one with too few. */
  function AlignMark(al: Aligner, images: seq<LoadedFrame>, i: nat): seq<real>
    requires i < |images|
  {
    if i == 0 then [30.0]
    else if |al.detect(images[i].image)| < MinAlignStars then []
    else [30.0 + Fraction(i + 1, |images|) * 40.0]
  }

  /** The aligned frames from the first n loaded frames. */
  function AlignedUpTo(al: Aligner, images: seq<LoadedFrame>, refStars: seq<Point>, reference: Frame,
                       n: nat): (r: seq<Frame>)
    requires n <= |images|
    ensures |r| <= n
  {
    if n == 0 then []
    else AlignedUpTo(al, images, refStars, reference, n - 1) + AlignStep(al, images, refStars, reference, n - 1)
  }

  /** The progress values of align_images over the first n frames. */
  function AlignMarks(al: Aligner, images: seq<LoadedFrame>, n: nat): seq<real>
    requires n <= |images|
  {
    if n == 0 then []
    else AlignMarks(al, images, n - 1) + AlignMark(al, images, n - 1)
  }

  /** Aligning reports non-decreasing values between 30 and 70, starting
      with 30 and none above 30 + n / total * 40 after n frames. */
  lemma {:induction false} AlignMarksSteps(al: Aligner, images: seq<LoadedFrame>, n: nat)
    requires n <= |images|
    ensures Steps(AlignMarks(al, images, n), 30.0, 70.0)
    ensures var log := AlignMarks(al, images, n);
      n > 0 ==> |log| > 0 && log[0] == 30.0 && log[|log| - 1] <= 30.0 + Fraction(n, |images|) * 40.0
  {
    if n == 1 {
      assert AlignMarks(al, images, n) == [30.0];
      FractionAtMostOne(1, |images|);
    } else if n > 1 {
      var prev := AlignMarks(al, images, n - 1);
      var f0, f1 := Fraction(n - 1, |images|), Fraction(n, |images|);
      AlignMarksSteps(al, images, n - 1);
      FractionAtMostOne(n, |images|);
      FractionMono(n - 1, n, |images|);
      assert 0.0 <= f0 * 40.0 <= f1 * 40.0 <= 40.0;
      assert prev[|prev| - 1] <= 30.0 + f1 * 40.0;
      if |al.detect(images[n - 1].image)| >= MinAlignStars {
        StepsAppend(prev, 30.0 + f1 * 40.0, 30.0, 70.0);
      }
    }
  }


  /** A later frame that aligns is warped onto the reference's shape. */
  lemma AlignStepShape(al: Aligner, images: seq<LoadedFrame>, refStars: seq<Point>, reference: Frame,
                       i: nat)
    requires 0 < i < |images|
    ensures forall f :: f in AlignStep(al, images, refStars, reference, i) ==> SameShape(f, reference)
  {
    var step := AlignStep(al, images, refStars, reference, i);
    if |step| == 1 {
      var f := AlignOne(al, refStars, reference, images[i].image).value;
      assert step == [f];
      assert forall r :: 0 <= r < |reference| ==> |reference[r]| == Width(reference);
    }
  }

  /** With the first loaded frame as reference, every aligned frame has the
      reference's shape, so the aligned stack can always be combined. */
  lemma {:induction false} AlignedShareReferenceShape(al: Aligner, images: seq<LoadedFrame>,
                                                      refStars: seq<Point>, n: nat)
    requires 0 < n <= |images|
    ensures var r := AlignedUpTo(al, images, refStars, images[0].image, n);
      && |r| > 0 && r[0] == images[0].image
      && (forall k :: 0 <= k < |r| ==> SameShape(r[k], images[0].image))
      && Combine.Uniform(r)
  {
    var reference := images[0].image;
    if n == 1 {
      assert AlignedUpTo(al, images, refStars, reference, 1) == [reference];
    } else {
      AlignedShareReferenceShape(al, images, refStars, n - 1);
      AlignStepShape(al, images, refStars, reference, n - 1);
      var prev := AlignedUpTo(al, images, refStars, reference, n - 1);
      var step := AlignStep(al, images, refStars, reference, n - 1);
      var r := prev + step;
      assert AlignedUpTo(al, images, refStars, reference, n) == r;
      forall k | 0 <= k < |r|
        ensures SameShape(r[k], reference)
      {
        if k >= |prev| {
          assert r[k] in step;
        }
      }
    }
  }

  // ------------------------------------------------------------ pipeline

  /** Where process_stack stands after loading and aligning: the aligned
      frames when it goes on to stack them, and the values reported so far. */
  datatype Staged = Staged(aligned: Option<seq<Frame>>, log: seq<real>)

  /** The loading and aligning stages of process_stack as a value, for an
      aligner al: they stop when fewer than two frames load, the reference
      has fewer than ten stars or fewer than two frames align; the log holds
      0 and the loading values, then 25 and the aligning values once the
      reference has enough stars. */
  function Prepare(kit: Toolkit, al: Aligner, paths: seq<string>): Staged {
    var loaded := Loaded(kit.decode, paths);
    var afterLoad := [0.0] + LoadMarks(kit.decode, paths, |paths|);
    if |loaded| < MinFrames then Staged(None, afterLoad)
    else
      var reference := loaded[0].image;
      var refStars := al.detect(reference);
      if |refStars| < MinAlignStars then Staged(None, afterLoad)
      else
        var afterAlign := afterLoad + [25.0] + AlignMarks(al, loaded, |loaded|);
        var aligned := AlignedUpTo(al, loaded, refStars, reference, |loaded|);
        if |aligned| < MinFrames then Staged(None, afterAlign)
        else Staged(Some(aligned), afterAlign)
  }

  /** What process_stack produces: the picture, if any, and the progress
      values it reports. */
  datatype Run = Run(picture: Option<Frame>, log: seq<real>)

  /** process_stack as a value, for an aligner al: after loading and
      aligning, no picture when the stack cannot be combined, otherwise the
      enhanced stack; the log goes on with 75 once two frames align, and 95
      and 100 when the stack combines. */
  function ProcessRun(kit: Toolkit, al: Aligner, stp: StackParams, paths: seq<string>): Run {
    var staged := Prepare(kit, al, paths);
    match staged.aligned
    case None => Run(None, staged.log)
    case Some(aligned) =>
      match Combine.StackImages(aligned, stp.rule, stp.sigmaLow, stp.sigmaHigh, kit.std)
      case None => Run(None, staged.log + [75.0])
      case Some(f) => Run(Some(kit.enhance(f)), staged.log + [75.0] + [95.0] + [100.0])
  }

  /** The picture process_stack returns. */
  function Pipeline(kit: Toolkit, al: Aligner, stp: StackParams, paths: seq<string>): Option<Frame> {
    ProcessRun(kit, al, stp, paths).picture
  }

  /** The values process_stack reports, in order, when a callback is set. */
  function ProcessLog(kit: Toolkit, al: Aligner, stp: StackParams, paths: seq<string>): seq<real> {
    ProcessRun(kit, al, stp, paths).log
  }

  /** The pipeline yields a picture exactly when two frames load, the
      reference has ten stars and two frames align: the combination step
      itself never fails on aligned frames. */
  lemma PipelineSucceedsIff(kit: Toolkit, al: Aligner, stp: StackParams, paths: seq<string>)
    ensures var loaded := Loaded(kit.decode, paths);
      Pipeline(kit, al, stp, paths).Some? <==>
        && |loaded| >= MinFrames
        && |al.detect(loaded[0].image)| >= MinAlignStars
        && |AlignedUpTo(al, loaded, al.detect(loaded[0].image), loaded[0].image, |loaded|)| >= MinFrames
  {
    var loaded := Loaded(kit.decode, paths);
    if |loaded| >= MinFrames {
      AlignedShareReferenceShape(al, loaded, al.detect(loaded[0].image), |loaded|);
    }
  }

  /** When the enhancement keeps the shape of its input, the picture has the
      shape of the first frame that loads. */
  lemma PipelineKeepsFirstFrameShape(kit: Toolkit, al: Aligner, stp: StackParams, paths: seq<string>)
    requires forall f: Frame :: SameShape(kit.enhance(f), f)
    requires Pipeline(kit, al, stp, paths).Some?
    ensures |Loaded(kit.decode, paths)| >= MinFrames
    ensures SameShape(Pipeline(kit, al, stp, paths).value, Loaded(kit.decode, paths)[0].image)
  {
    var loaded := Loaded(kit.decode, paths);
    var refStars := al.detect(loaded[0].image);
    AlignedShareReferenceShape(al, loaded, refStars, |loaded|);
    var aligned := AlignedUpTo(al, loaded, refStars, loaded[0].image, |loaded|);
    var f := Combine.StackImages(aligned, stp.rule, stp.sigmaLow, stp.sigmaHigh, kit.std).value;
    assert SameShape(f, aligned[0]);
    assert SameShape(kit.enhance(f), f);
  }

  /** The stack of a burst of identical frames, each with enough stars, is
      the enhanced frame itself when the RANSAC estimate of identical star
      lists is the identity and warping by it reproduces its input. */
  lemma PipelineOfCopies(kit: Toolkit, al: Aligner, stp: StackParams, paths: seq<string>, f: Frame,
                         identity: Affine)
    requires |paths| >= MinFrames
    requires forall p :: p in paths ==> kit.decode(p) == Some(f)
    requires |al.detect(f)| >= MinAlignStars
    requires al.transform(al.detect(f), al.detect(f)) == Some(identity)
    requires Warp(al.sample, f, identity, |f|, Width(f)) == f
    requires stp.sigmaLow >= 0.0 && stp.sigmaHigh >= 0.0 && forall c :: kit.std(c) >= 0.0
    ensures Pipeline(kit, al, stp, paths) == Some(kit.enhance(f))
  {
    var loaded := Loaded(kit.decode, paths);
    LoadedAllCopies(kit.decode, paths, f, |paths|);
    var stars := al.detect(f);
    AlignedAllCopies(al, loaded, stars, f, identity, |loaded|);
    var aligned := AlignedUpTo(al, loaded, stars, f, |loaded|);
    Combine.StackOfCopiesIsTheFrame(aligned, f, stp.rule, stp.sigmaLow, stp.sigmaHigh, kit.std);
  }

  lemma {:induction false} LoadedAllCopies(decode: string -> Option<Frame>, paths: seq<string>, f: Frame,
                                           n: nat)
    requires n <= |paths|
    requires forall p :: p in paths ==> decode(p) == Some(f)
    ensures |LoadedUpTo(decode, paths, n)| == n
    ensures forall k :: 0 <= k < n ==> LoadedUpTo(decode, paths, n)[k].image == f
  {
    if n > 0 {
      LoadedAllCopies(decode, paths, f, n - 1);
      assert paths[n - 1] in paths;
    }
  }

  lemma {:induction false} AlignedAllCopies(al: Aligner, images: seq<LoadedFrame>, stars: seq<Point>,
                                            f: Frame, identity: Affine, n: nat)
    requires n <= |images|
    requires forall k :: 0 <= k < |images| ==> images[k].image == f
    requires stars == al.detect(f) && |stars| >= MinAlignStars
    requires al.transform(stars, stars) == Some(identity)
    requires Warp(al.sample, f, identity, |f|, Width(f)) == f
    ensures |AlignedUpTo(al, images, stars, f, n)| == n
    ensures forall k :: 0 <= k < n ==> AlignedUpTo(al, images, stars, f, n)[k] == f
  {
    if n > 1 {
      AlignedAllCopies(al, images, stars, f, identity, n - 1);
      assert AlignOne(al, stars, f, images[n - 1].image) == Some(f);
    } else if n == 1 {
      assert AlignedUpTo(al, images, stars, f, 1) == [images[0].image];
    }
  }

  /** The log after loading: 0, then the loading values. */
  lemma LoadLogSteps(decode: string -> Option<Frame>, paths: seq<string>)
    ensures var log := [0.0] + LoadMarks(decode, paths, |paths|);
      Steps(log, 0.0, 20.0) && log[0] == 0.0
  {
    LoadMarksSteps(decode, paths, |paths|);
    StepsJoin([0.0], LoadMarks(decode, paths, |paths|), 0.0, 0.0, 20.0);
  }

  /** The log after aligning: the earlier log, 25, then the aligning values. */
  lemma AlignLogSteps(log: seq<real>, al: Aligner, images: seq<LoadedFrame>)
    requires Steps(log, 0.0, 20.0) && |log| > 0
    ensures var l := log + [25.0] + AlignMarks(al, images, |images|);
      Steps(l, 0.0, 70.0) && l[0] == log[0]
  {
    var marks := AlignMarks(al, images, |images|);
    AlignMarksSteps(al, images, |images|);
    assert Steps(marks, 25.0, 70.0);
    StepsJoin([25.0], marks, 20.0, 25.0, 70.0);
    StepsJoin(log, [25.0] + marks, 0.0, 20.0, 70.0);
    assert log + [25.0] + marks == log + ([25.0] + marks);
  }

  /** A log within [0, 70] that starts at 0, followed by 75 alone or by 75,
      95 and 100, still steps within [0, 100] from 0. */
  lemma StackTailSteps(log: seq<real>)
    requires Steps(log, 0.0, 70.0) && |log| > 0 && log[0] == 0.0
    ensures Steps(log + [75.0], 0.0, 100.0) && (log + [75.0])[0] == 0.0
    ensures Steps(log + [75.0] + [95.0] + [100.0], 0.0, 100.0) && (log + [75.0] + [95.0] + [100.0])[0] == 0.0
  {
    StepsJoin(log, [75.0], 0.0, 70.0, 100.0);
    StepsJoin(log, [75.0, 95.0, 100.0], 0.0, 70.0, 100.0);
    assert log + [75.0] + [95.0] + [100.0] == log + [75.0, 95.0, 100.0];
  }

  /** The values reported while loading and aligning never go back, stay
      within 0 to 70 and start at 0. */
  lemma PrepareLogSteps(kit: Toolkit, al: Aligner, paths: seq<string>)
    ensures var log := Prepare(kit, al, paths).log;
      Steps(log, 0.0, 70.0) && |log| > 0 && log[0] == 0.0
  {
    var loaded := Loaded(kit.decode, paths);
    var afterLoad := [0.0] + LoadMarks(kit.decode, paths, |paths|);
    LoadLogSteps(kit.decode, paths);
    if |loaded| < MinFrames || |al.detect(loaded[0].image)| < MinAlignStars {
      assert Prepare(kit, al, paths).log == afterLoad;
    } else {
      AlignLogSteps(afterLoad, al, loaded);
    }
  }

  /** The reported values never go back, stay within 0 to 100, start at 0,
      and end at 100 exactly when the pipeline yields a picture. */
  lemma ProcessLogSteps(kit: Toolkit, al: Aligner, stp: StackParams, paths: seq<string>)
    ensures var log := ProcessLog(kit, al, stp, paths);
      && Steps(log, 0.0, 100.0) && |log| > 0 && log[0] == 0.0
      && (log[|log| - 1] == 100.0 <==> Pipeline(kit, al, stp, paths).Some?)
  {
    var staged := Prepare(kit, al, paths);
    PrepareLogSteps(kit, al, paths);
    StackTailSteps(staged.log);
    if staged.aligned.None? {
      assert staged.log[|staged.log| - 1] <= 70.0;
    }
  }

  // ------------------------------------------------------- the processor

  class AstroStacker {
    const kit: Toolkit
    var images: seq<LoadedFrame>
    var alignedImages: seq<Frame>
    var referenceImage: Option<Frame>
    /** Whether a progress callback is set. */
    var reporting: bool
    /** The values passed to the current progress callback, in order. */
    var progress: seq<real>
    var cancelFlag: bool
    var starParams: StarParams
    var alignParams: AlignParams
    var stackParams: StackParams

    constructor(kit: Toolkit)
      ensures this.kit == kit
      ensures images == [] && alignedImages == [] && referenceImage.None?
      ensures !reporting && progress == [] && !cancelFlag
      ensures starParams == DefaultStarParams && alignParams == DefaultAlignParams
      ensures stackParams == DefaultStackParams
    {
      this.kit := kit;
      images := [];
      alignedImages := [];
      referenceImage := None;
      reporting := false;
      progress := [];
      cancelFlag := false;
      starParams := DefaultStarParams;
      alignParams := DefaultAlignParams;
      stackParams := DefaultStackParams;
    }

    /** Each given value replaces its parameter; the others stay. */
    method SetStarDetectionParams(threshold: Option<real>, minArea: Option<real>, maxArea: Option<real>,
                                  gaussianBlur: Option<real>)
      modifies this
      ensures starParams == StarParams(Override(old(starParams.threshold), threshold),
                                       Override(old(starParams.minArea), minArea),
                                       Override(old(starParams.maxArea), maxArea),
                                       Override(old(starParams.gaussianBlur), gaussianBlur))
      ensures alignParams == old(alignParams) && stackParams == old(stackParams)
      ensures images == old(images) && alignedImages == old(alignedImages)
      ensures referenceImage == old(referenceImage) && progress == old(progress)
      ensures reporting == old(reporting) && cancelFlag == old(cancelFlag)
    {
      if threshold.Some? {
        starParams := starParams.(threshold := threshold.value);
      }
      if minArea.Some? {
        starParams := starParams.(minArea := minArea.value);
      }
      if maxArea.Some? {
        starParams := starParams.(maxArea := maxArea.value);
      }
      if gaussianBlur.Some? {
        starParams := starParams.(gaussianBlur := gaussianBlur.value);
      }
    }

    /** Only the feature limit and the match threshold can be set; the RANSAC
        threshold keeps its default. */
    method SetAlignmentParams(maxFeatures: Option<int>, matchThreshold: Option<real>)
      modifies this
      ensures alignParams == AlignParams(Override(old(alignParams.maxFeatures), maxFeatures),
                                         Override(old(alignParams.matchThreshold), matchThreshold),
                                         old(alignParams.ransacThreshold))
      ensures starParams == old(starParams) && stackParams == old(stackParams)
      ensures images == old(images) && alignedImages == old(alignedImages)
      ensures referenceImage == old(referenceImage) && progress == old(progress)
      ensures reporting == old(reporting) && cancelFlag == old(cancelFlag)
    {
      if maxFeatures.Some? {
        alignParams := alignParams.(maxFeatures := maxFeatures.value);
      }
      if matchThreshold.Some? {
        alignParams := alignParams.(matchThreshold := matchThreshold.value);
      }
    }

    /** The lower and upper sigmas are stored under the names sigma_clip_stack
        reads; the sigma_clip flag under its own name, which nothing reads. */
    method SetStackingParams(rule: Option<string>, sigmaClip: Option<bool>, sigmaLower: Option<real>,
                             sigmaUpper: Option<real>, rejectionRatio: Option<real>)
      modifies this
      ensures stackParams == StackParams(Override(old(stackParams.rule), rule),
                                         Override(old(stackParams.sigmaLow), sigmaLower),
                                         Override(old(stackParams.sigmaHigh), sigmaUpper),
                                         Override(old(stackParams.rejectionRatio), rejectionRatio),
                                         if sigmaClip.Some? then sigmaClip else old(stackParams.sigmaClip))
      ensures starParams == old(starParams) && alignParams == old(alignParams)
      ensures images == old(images) && alignedImages == old(alignedImages)
      ensures referenceImage == old(referenceImage) && progress == old(progress)
      ensures reporting == old(reporting) && cancelFlag == old(cancelFlag)
    {
      if rule.Some? {
        stackParams := stackParams.(rule := rule.value);
      }
      if sigmaClip.Some? {
        stackParams := stackParams.(sigmaClip := sigmaClip);
      }
      if sigmaLower.Some? {
        stackParams := stackParams.(sigmaLow := sigmaLower.value);
      }
      if sigmaUpper.Some? {
        stackParams := stackParams.(sigmaHigh := sigmaUpper.value);
      }
      if rejectionRatio.Some? {
        stackParams := stackParams.(rejectionRatio := rejectionRatio.value);
      }
    }

    /** load_images: a set cancel flag stops before the first path; otherwise
        every path that decodes is kept, with a progress value after each,
        and with at least two frames the first becomes the reference. */
    method LoadImages(paths: seq<string>) returns (ok: bool)
      modifies this
      ensures old(cancelFlag) && |paths| > 0 ==>
        !ok && images == [] && progress == old(progress) && referenceImage == old(referenceImage)
      ensures !(old(cancelFlag) && |paths| > 0) ==>
        && images == Loaded(kit.decode, paths)
        && progress == old(progress) + Report(reporting, LoadMarks(kit.decode, paths, |paths|))
        && (ok <==> |images| >= MinFrames)
        && referenceImage == (if ok then Some(images[0].image) else old(referenceImage))
      ensures alignedImages == old(alignedImages) && cancelFlag == old(cancelFlag)
      ensures reporting == old(reporting) && starParams == old(starParams)
      ensures alignParams == old(alignParams) && stackParams == old(stackParams)
    {
      images := [];
      var i := 0;
      while i < |paths|
        invariant 0 <= i <= |paths|
        invariant i > 0 ==> !cancelFlag
        invariant referenceImage == old(referenceImage) && cancelFlag == old(cancelFlag)
        invariant alignedImages == old(alignedImages) && reporting == old(reporting)
        invariant starParams == old(starParams) && alignParams == old(alignParams)
        invariant stackParams == old(stackParams)
        invariant images == LoadedUpTo(kit.decode, paths, i)
        invariant progress == old(progress) + Report(reporting, LoadMarks(kit.decode, paths, i))
      {
        if cancelFlag {
          return false;
        }
        var decoded := kit.decode(paths[i]);
        if decoded.Some? {
          images := images + [LoadedFrame(paths[i], decoded.value)];
          if reporting {
            progress := progress + [Fraction(i + 1, |paths|) * 20.0];
          }
        }
        i := i + 1;
      }
      if |images| < MinFrames {
        return false;
      }
      referenceImage := Some(images[0].image);
      ok := true;
    }

    /** detect_stars with the current parameters. */
    method DetectStars(image: Frame) returns (stars: seq<Point>)
      ensures stars == Detect(kit, starParams, alignParams, image)
    {
      var gray := kit.luminance(image);
      var cs := kit.contours(gray, starParams.gaussianBlur, starParams.threshold);
      stars := DetectStarsIn(cs, gray, starParams.minArea, starParams.maxArea, alignParams.maxFeatures);
    }

    /** match_stars with the current RANSAC threshold. */
    method MatchStars(refStars: seq<Point>, curStars: seq<Point>) returns (t: Option<Affine>)
      ensures t == TransformOf(refStars, curStars, kit.estimate, alignParams.ransacThreshold)
    {
      t := StarMatching.MatchStars(refStars, curStars, kit.estimate, alignParams.ransacThreshold);
    }

    /** The body of align_images' loop for frame i: the frame to append, if
        any, and the progress value to report, if any. */
    method AlignFrame(i: nat, refStars: seq<Point>, reference: Frame, ghost al: Aligner)
      returns (step: seq<Frame>, mark: seq<real>)
      requires i < |images|
      requires Implements(al, kit, starParams, alignParams)
      ensures step == AlignStep(al, images, refStars, reference, i)
      ensures mark == AlignMark(al, images, i)
    {
      var current := images[i].image;
      if i == 0 {
        return [current], [30.0];
      }
      var stars := DetectStars(current);
      if |stars| < MinAlignStars {
        return [], [];
      }
      var t := MatchStars(refStars, stars);
      step := [];
      if t.Some? {
        step := [Warp(kit.sample, current, t.value, |reference|, Width(reference))];
      }
      mark := [30.0 + Fraction(i + 1, |images|) * 40.0];
    }

    /** One pass of align_images' loop over frame i: the frame's step is
        appended to the aligned list and its progress value reported, which
        takes both from their values after i frames to those after i + 1. */
    method AlignNext(i: nat, refStars: seq<Point>, reference: Frame, ghost al: Aligner, ghost p0: seq<real>)
      requires i < |images|
      requires Implements(al, kit, starParams, alignParams)
      requires alignedImages == AlignedUpTo(al, images, refStars, reference, i)
      requires progress == p0 + Report(reporting, AlignMarks(al, images, i))
      modifies this
      ensures images == old(images) && referenceImage == old(referenceImage)
      ensures cancelFlag == old(cancelFlag) && reporting == old(reporting)
      ensures starParams == old(starParams) && alignParams == old(alignParams)
      ensures stackParams == old(stackParams)
      ensures alignedImages == AlignedUpTo(al, images, refStars, reference, i + 1)
      ensures progress == p0 + Report(reporting, AlignMarks(al, images, i + 1))
    {
      var step, mark := AlignFrame(i, refStars, reference, al);
      alignedImages := alignedImages + step;
      if reporting {
        progress := progress + mark;
      }
    }

    /** The loop of align_images, from an emptied aligned list: stopped by
        the cancel flag before the first frame, otherwise the first frame and
        every later frame that aligns, with one progress value per frame that
        has enough stars. */
    method AlignFrames(refStars: seq<Point>, reference: Frame, ghost al: Aligner) returns (ok: bool)
      requires |images| > 0
      requires Implements(al, kit, starParams, alignParams)
      modifies this
      ensures cancelFlag ==> !ok && alignedImages == [] && progress == old(progress)
      ensures !cancelFlag ==>
        && alignedImages == AlignedUpTo(al, images, refStars, reference, |images|)
        && progress == old(progress) + Report(reporting, AlignMarks(al, images, |images|))
        && (ok <==> |alignedImages| >= MinFrames)
      ensures images == old(images) && referenceImage == old(referenceImage)
      ensures cancelFlag == old(cancelFlag) && reporting == old(reporting)
      ensures starParams == old(starParams) && alignParams == old(alignParams)
      ensures stackParams == old(stackParams)
    {
      alignedImages := [];
      ghost var p0 := progress;
      for i := 0 to |images|
        invariant images == old(images) && referenceImage == old(referenceImage)
        invariant cancelFlag == old(cancelFlag) && reporting == old(reporting)
        invariant starParams == old(starParams) && alignParams == old(alignParams)
        invariant stackParams == old(stackParams)
        invariant i > 0 ==> !cancelFlag
        invariant Implements(al, kit, starParams, alignParams)
        invariant alignedImages == AlignedUpTo(al, images, refStars, reference, i)
        invariant progress == p0 + Report(reporting, AlignMarks(al, images, i))
      {
        if cancelFlag {
          return false;
        }
        AlignNext(i, refStars, reference, al, p0);
      }
      ok := |alignedImages| >= MinFrames;
    }

    /** align_images, for an aligner al that does what the current
        parameters say (AlignerOf gives one): nothing happens without frames
        or a reference; the aligned list is emptied, and stays empty when the
        reference has fewer than ten stars or the cancel flag is set;
        otherwise it holds the first frame and every later frame that aligns,
        and the call succeeds with at least two. */
    method AlignImages(ghost al: Aligner) returns (ok: bool)
      requires Implements(al, kit, starParams, alignParams)
      modifies this
      ensures |images| == 0 || referenceImage.None? ==>
        !ok && alignedImages == old(alignedImages) && progress == old(progress)
      ensures |images| > 0 && referenceImage.Some? ==>
        var refStars := al.detect(referenceImage.value);
        if |refStars| < MinAlignStars then
          !ok && alignedImages == [] && progress == old(progress)
        else if cancelFlag then
          !ok && alignedImages == [] && progress == old(progress) + Report(reporting, [25.0])
        else
          && alignedImages == AlignedUpTo(al, images, refStars, referenceImage.value, |images|)
          && progress == old(progress) + Report(reporting, [25.0])
                         + Report(reporting, AlignMarks(al, images, |images|))
          && (ok <==> |alignedImages| >= MinFrames)
      ensures images == old(images) && referenceImage == old(referenceImage)
      ensures cancelFlag == old(cancelFlag) && reporting == old(reporting)
      ensures starParams == old(starParams) && alignParams == old(alignParams)
      ensures stackParams == old(stackParams)
    {
      if |images| == 0 || referenceImage.None? {
        return false;
      }
      alignedImages := [];
      var reference := referenceImage.value;
      var refStars := DetectStars(reference);
      if |refStars| < MinAlignStars {
        return false;
      }
      if reporting {
        progress := progress + [25.0];
      }
      ok := AlignFrames(refStars, reference, al);
    }

    /** stack_images: None without aligned frames; otherwise the combination
        of the aligned frames by the configured rule, None when they do not
        share one shape. */
    method StackImages() returns (r: Option<Frame>)
      modifies this
      ensures r == Combine.StackImages(alignedImages, stackParams.rule, stackParams.sigmaLow,
                                       stackParams.sigmaHigh, kit.std)
      ensures |alignedImages| == 0 ==> progress == old(progress)
      ensures |alignedImages| > 0 ==>
        progress == old(progress) + Report(reporting, [75.0]) + Report(reporting && r.Some?, [95.0])
      ensures images == old(images) && alignedImages == old(alignedImages)
      ensures referenceImage == old(referenceImage)
      ensures cancelFlag == old(cancelFlag) && reporting == old(reporting)
      ensures starParams == old(starParams) && alignParams == old(alignParams)
      ensures stackParams == old(stackParams)
    {
      if |alignedImages| == 0 {
        return None;
      }
      if reporting {
        progress := progress + [75.0];
      }
      r := Combine.StackImages(alignedImages, stackParams.rule, stackParams.sigmaLow,
                               stackParams.sigmaHigh, kit.std);
      if r.Some? && reporting {
        progress := progress + [95.0];
      }
    }

    /** The first part of process_stack: installs the callback, clears the
        cancel flag, reports 0, then loads and aligns the frames as Prepare
        says, for an aligner al that does what the current parameters say. */
    method PrepareStack(paths: seq<string>, withCallback: bool, ghost al: Aligner) returns (ok: bool)
      requires Implements(al, kit, starParams, alignParams)
      modifies this
      ensures ok <==> Prepare(kit, al, paths).aligned.Some?
      ensures ok ==> alignedImages == Prepare(kit, al, paths).aligned.value
      ensures reporting == withCallback && !cancelFlag
      ensures progress == Report(withCallback, Prepare(kit, al, paths).log)
      ensures starParams == old(starParams) && alignParams == old(alignParams)
      ensures stackParams == old(stackParams)
    {
      reporting := withCallback;
      cancelFlag := false;
      progress := [];
      if reporting {
        progress := [0.0];
      }
      ok := LoadImages(paths);
      if !ok {
        return;
      }
      ok := AlignImages(al);
    }

    /** process_stack: after loading and aligning, stacks the aligned frames,
        enhances the stack and reports 100; the result is the pipeline's and
        the values reported are ProcessLog's, for an aligner al that does
        what the current parameters say. */
    method ProcessStack(paths: seq<string>, withCallback: bool, ghost al: Aligner) returns (r: Option<Frame>)
      requires Implements(al, kit, starParams, alignParams)
      modifies this
      ensures r == Pipeline(kit, al, stackParams, paths)
      ensures reporting == withCallback && !cancelFlag
      ensures progress == Report(withCallback, ProcessLog(kit, al, stackParams, paths))
      ensures starParams == old(starParams) && alignParams == old(alignParams)
      ensures stackParams == old(stackParams)
    {
      var prepared := PrepareStack(paths, withCallback, al);
      if !prepared {
        return None;
      }
      var stacked := StackImages();
      if stacked.None? {
        return None;
      }
      var enhanced := kit.enhance(stacked.value);
      if reporting {
        progress := progress + [100.0];
      }
      r := Some(enhanced);
    }

    /** cancel_processing: sets the flag that loading and aligning check. */
    method CancelProcessing()
      modifies this
      ensures cancelFlag
      ensures images == old(images) && alignedImages == old(alignedImages)
      ensures referenceImage == old(referenceImage) && progress == old(progress)
      ensures reporting == old(reporting) && starParams == old(starParams)
      ensures alignParams == old(alignParams) && stackParams == old(stackParams)
    {
      cancelFlag := true;
    }

    /** get_stacking_info. */
    method StackingInfo() returns (info: Info)
      ensures info.totalImages == |images| && info.alignedImages == |alignedImages|
      ensures info.starParams == starParams && info.alignParams == alignParams
      ensures info.stackParams == stackParams
    {
      info := Info(|images|, |alignedImages|, starParams, alignParams, stackParams);
    }
  }

  datatype Info = Info(totalImages: nat, alignedImages: nat, starParams: StarParams,
                       alignParams: AlignParams, stackParams: StackParams)

  // ------------------------------------------------------- free functions

  /** estimate_processing_time: two seconds per frame, scaled by the pixel
      count relative to 1920 x 1080. */
  function EstimateProcessingTime(numImages: int, width: int, height: int): real {
    (numImages * 2) as real * ((width * height) as real / (1920 * 1080) as real)
  }

  /** At 1920 x 1080 the estimate is two seconds per frame. */
  lemma EstimateAtFullHd(numImages: int)
    ensures EstimateProcessingTime(numImages, 1920, 1080) == 2.0 * numImages as real
  {
  }

  /** More frames of the same size never take less time. */
  lemma EstimateGrowsWithFrames(n1: nat, n2: nat, width: nat, height: nat)
    requires n1 <= n2
    ensures EstimateProcessingTime(n1, width, height) <= EstimateProcessingTime(n2, width, height)
  {
    var factor := (width * height) as real / (1920 * 1080) as real;
    assert factor >= 0.0;
    Combine.MulMono((n1 * 2) as real, (n2 * 2) as real, factor);
  }

  /** The outcome of validate_images_for_stacking; the failures name the
      position of the offending path. */
  datatype Validation = Valid | TooFew | FirstUnreadable | Unreadable(index: nat) | SizeMismatch(index: nat)

  /** The check of the paths after the first, from position i on, against the
      first image's size. */
  function ValidateFrom(probe: string -> Option<(int, int)>, paths: seq<string>, base: (int, int), i: nat)
    : Validation
    requires 1 <= i <= |paths|
    decreases |paths| - i
  {
    if i == |paths| then Valid
    else
      match probe(paths[i])
      case None => Unreadable(i)
      case Some(size) => if size != base then SizeMismatch(i) else ValidateFrom(probe, paths, base, i + 1)
  }

  /** validate_images_for_stacking: fewer than two paths, a first image that
      cannot be opened, then the first later path that cannot be opened or
      whose size differs from the first. */
  function Validate(probe: string -> Option<(int, int)>, paths: seq<string>): Validation {
    if |paths| < 2 then TooFew
    else
      match probe(paths[0])
      case None => FirstUnreadable
      case Some(base) => ValidateFrom(probe, paths, base, 1)
  }

  /** The paths are accepted exactly when there are at least two, all can be
      opened and all have the first image's size. */
  lemma ValidateIff(probe: string -> Option<(int, int)>, paths: seq<string>)
    ensures Validate(probe, paths) == Valid <==>
      |paths| >= 2 && (forall k :: 0 <= k < |paths| ==> probe(paths[k]).Some?)
      && forall k :: 0 <= k < |paths| ==> probe(paths[k]) == probe(paths[0])
  {
    if |paths| >= 2 && probe(paths[0]).Some? {
      ValidateFromIff(probe, paths, probe(paths[0]).value, 1);
    }
  }

  lemma {:induction false} ValidateFromIff(probe: string -> Option<(int, int)>, paths: seq<string>,
                                           base: (int, int), i: nat)
    requires 1 <= i <= |paths|
    ensures ValidateFrom(probe, paths, base, i) == Valid <==>
      forall k :: i <= k < |paths| ==> probe(paths[k]) == Some(base)
    decreases |paths| - i
  {
    if i < |paths| {
      ValidateFromIff(probe, paths, base, i + 1);
    }
  }

  /** A reported failure names the first offending path: every path before
      it opens with the first image's size. */
  lemma {:induction false} ValidateFromNamesFirstFailure(probe: string -> Option<(int, int)>,
                                                         paths: seq<string>, base: (int, int), i: nat)
    requires 1 <= i <= |paths|
    ensures var v := ValidateFrom(probe, paths, base, i);
      (v.Unreadable? ==> i <= v.index < |paths| && probe(paths[v.index]).None?
                         && forall k :: i <= k < v.index ==> probe(paths[k]) == Some(base))
      && (v.SizeMismatch? ==> i <= v.index < |paths| && probe(paths[v.index]).Some?
                              && probe(paths[v.index]) != Some(base)
                              && forall k :: i <= k < v.index ==> probe(paths[k]) == Some(base))
    decreases |paths| - i
  {
    if i < |paths| && probe(paths[i]) == Some(base) {
      ValidateFromNamesFirstFailure(probe, paths, base, i + 1);
    }
  }

  /** The loop of validate_images_for_stacking. */
  method ValidateImages(probe: string -> Option<(int, int)>, paths: seq<string>) returns (v: Validation)
    ensures v == Validate(probe, paths)
  {
    if |paths| < 2 {
      return TooFew;
    }
    var first := probe(paths[0]);
    if first.None? {
      return FirstUnreadable;
    }
    var base := first.value;
    var i := 1;
    while i < |paths|
      invariant 1 <= i <= |paths|
      invariant Validate(probe, paths) == ValidateFrom(probe, paths, base, i)
    {
      var size := probe(paths[i]);
      if size.None? {
        return Unreadable(i);
      }
      if size.value != base {
        return SizeMismatch(i);
      }
      i := i + 1;
    }
    v := Valid;
  }
}
