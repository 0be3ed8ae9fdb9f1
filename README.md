# Sky Editor core, modelled in Dafny

Sky Editor is a desktop tool for astrophotographers. This project models four of its parts and proves properties about them.

- **The stacking engine.** `AstroStacker` loads a burst of frames. It detects stars in each frame by contour area and centroid, keeping the brightest when there are too many. It pairs each reference star with its nearest neighbour and estimates an affine transform per frame. It warps every later frame onto the first, combines the aligned frames per pixel (average, median, maximum or sigma clip) and enhances the result, reporting progress along the way. Two helpers sit beside it: `validate_images_for_stacking` and `estimate_processing_time`.
- **The Camera Raw processor.** This covers:
  - the adjustment groups, with their reset and the preset merge;
  - the colour and light-pollution pixel arithmetic;
  - the RAW 16-bit to 8-bit conversion and the histograms;
  - the RAW/standard decoder dispatch on the file extension;
  - the order in which `process_image` applies basic, colour and astro adjustments.
- **The stacking window.** This covers:
  - adding files without duplicates and removing selected rows by serial number;
  - the three parameter presets and the pre-run guard;
  - the automatic output name and the outcome dispatch after a run;
  - the image-count and time-estimate text.
- **The main window's viewer.** This covers:
  - rotation, zoom and zoom-to-fit of the preview;
  - moving between and removing images;
  - the thumbnail grid layout and the listing of selected files;
  - the size-ordered loading queue and the configuration defaults.

## How each part is modelled

- **Pure code becomes functions and lemmas.** This covers pixel arithmetic, matching, combination, the presets and the text.
- **Code that updates state in place becomes a class.** There are four: `Stacker.AstroStacker`, `CameraRaw.CameraRawProcessor`, `StackingUi.StackingWindow` and `Viewer.ImageViewer`. Their fields are the source's attributes and their methods carry `modifies` clauses.
- **Loops in the source are `while` or `for` loops with invariants.** Each is proved against a function that specifies it. Examples: `StarDetection.DetectStarsIn`, `StarMatching.MatchStars`, `Stacker.ValidateImages`, the in-place float-buffer steps of the colour and light-pollution adjustments, and `Viewer.LoadConfig`.
- **Library calls are given functions.** The OpenCV, numpy, PIL and rawpy calls are fields of `Stacker.Toolkit` and `CameraRaw.Filters`. These cover decoding, grey conversion, contour finding, RANSAC estimation, warping, `np.std` and the PIL enhancers.
- **Alignment uses an abstract aligner.** The stacker's alignment is stated for any `Stacker.Aligner` that `Implements` the stacker's own detection and matching under the current parameters. `AlignerOf` constructs such an aligner.
- **Sample arithmetic uses `real`.** numpy's float64 arithmetic, and the viewer's zoom factor, are modelled with `real` numbers. `np.clip(...).astype(np.uint8)` becomes `Common.ClipToByte`, and Python's `int()` of a float becomes `Common.Trunc`.
- **Outside inputs are parameters.** File probes, file sizes, the stored configuration, the clock and the user's confirmation all come in as parameters.

Some behaviour of the code worth knowing in advance:

- **Sigma clipping.** When every sample at a pixel falls outside the band, the masked sum 0 is divided by a count forced to 1, so the pixel is 0. See `Combine.SigmaClipAllRejectedIsZero` and `Combine.SigmaClipCanBlankAPixel`.
- **Stars needed for alignment.** Both the reference frame and every later frame need at least ten detected stars (`MinAlignStars`). The three-point minimum applies only inside `match_stars`.
- **Cancellation.** `load_images` and `align_images` check the cancel flag, and so does the window's dispatch after the run. The combination step does not check it.
- **The pipeline's own failures.** The pipeline fails when fewer than two frames load, when the reference has fewer than ten stars, and when fewer than two frames align.
- **Progress values.** These are real values such as `(i + 1) / total * 20`, not whole percentages.
- **Star positions.** When stars are limited to the brightest, positions are truncated to whole pixels and points outside the plane are dropped.

## Model

| member | source | states |
|---|---|---|
| Common.Trunc | src/modules/stacking/processor.py:171 | `int()` of a float truncates toward zero: the result is within one of the input, on the side of zero |
| Common.ClipToByte | src/modules/stacking/processor.py:333 | `np.clip(v, 0, 255).astype(uint8)`: 0 at or below 0, 255 at or above 255, otherwise the whole part of v |
| Common.ClipToByteMonotone | src/modules/camera_raw/processor.py:270-272 | the clip to 8 bits keeps the order of values |
| Common.PyPrefix | src/modules/stacking/processor.py:178 | the slice `s[:n]` has min(n, len) elements (len + n, or 0, for a negative n) and is a prefix of s |
| Common.RFind | src/modules/stacking/ui.py:781-782 | the last position of the character, or -1 when it does not occur |
| Common.SuffixOfFile | src/main_window.py:759 | `Path.suffix` of dir/stem.ext is ".ext" for a stem and extension without separators |
| Sorting.Sort | src/main_window.py:825 | the sort keeps the length and the multiset of elements |
| Sorting.SortSorted | src/modules/stacking/processor.py:177 | under a total order, the sort's result is ordered and is a permutation of its input |
| StarDetection.Candidates | src/modules/stacking/processor.py:151-164 | the centroid list is no longer than the contour list |
| StarDetection.CandidatesSound | src/modules/stacking/processor.py:152-164 | every candidate is the centroid of a contour whose area is within [min_area, max_area] and whose m00 is non-zero |
| StarDetection.CandidatesComplete | src/modules/stacking/processor.py:152-164 | every contour that passes the area and m00 test contributes its centroid |
| StarDetection.RankedOf | src/modules/stacking/processor.py:169-174 | each ranked entry is a truncated position inside the plane, carrying the grey value there |
| StarDetection.RankedFromCandidates | src/modules/stacking/processor.py:170-174 | every ranked pixel is the truncated position of some candidate |
| StarDetection.BrightFirstIsTotalOrder | src/modules/stacking/processor.py:177 | the reverse tuple order on (brightness, (x, y)) is a total order |
| StarDetection.BrightestFirst | src/modules/stacking/processor.py:177 | the sorted list is a permutation of the ranked pixels |
| StarDetection.BrightestFirstFacts | src/modules/stacking/processor.py:169-177 | the sorted list is in non-increasing brightness order; each entry is in the plane with its grey value and comes from a candidate |
| StarDetection.StarsBounded | src/modules/stacking/processor.py:167-178 | a non-negative max_features bounds the number of stars returned |
| StarDetection.StarsUnderLimitAreCandidates | src/modules/stacking/processor.py:151-167 | at or below the limit, the stars are exactly the filtered centroids |
| StarDetection.BrightestAreKept | src/modules/stacking/processor.py:166-178 | above the limit, the stars are the first max_features positions of the brightness-sorted in-plane pixels, and none is dimmer than any pixel left out |
| StarDetection.DetectStarsIn | src/modules/stacking/processor.py:151-181 | the loops of detect_stars compute exactly the specified star list |
| StarMatching.Nearest | src/modules/stacking/processor.py:264-272 | the chosen index lies within the current star list |
| StarMatching.NearestIsFirstMinimum | src/modules/stacking/processor.py:265-272 | the chosen star is at the least distance, and is the first such (strict `<` update) |
| StarMatching.Matches | src/modules/stacking/processor.py:263-276 | at most one pair per reference star, with both indices in range |
| StarMatching.MatchesSound | src/modules/stacking/processor.py:263-276 | every pair joins a reference star to its nearest current star, closer than 100 pixels |
| StarMatching.MatchesOrdered | src/modules/stacking/processor.py:264 | the pairs follow the reference order strictly |
| StarMatching.MatchesComplete | src/modules/stacking/processor.py:274-276 | every reference star whose nearest star is within 100 pixels is paired with it |
| StarMatching.Sources | src/modules/stacking/processor.py:282 | the source points are the current stars of the pairs, in order |
| StarMatching.Targets | src/modules/stacking/processor.py:283 | the target points are the reference stars of the pairs, in order |
| StarMatching.TransformNeedsThreeClosePairs | src/modules/stacking/processor.py:255-290 | a transform exists only with three stars on each side and three close pairs, whose points the estimator received |
| StarMatching.MatchStars | src/modules/stacking/processor.py:251-296 | the nested loops return exactly the specified transform |
| Combine.ParseMethod | src/modules/stacking/processor.py:310-330 | "median", "maximum" and "sigma_clip" select their rule; every other name selects the average |
| Combine.Column | src/modules/stacking/processor.py:308 | the column at (i, j) holds each frame's sample there, in stack order |
| Combine.MeanBetween | src/modules/stacking/processor.py:312-314 | the mean lies between any lower and upper bound of the samples |
| Combine.MeanOfConstant | src/modules/stacking/processor.py:314 | the mean of a constant column is that constant |
| Combine.MedianBetween | src/modules/stacking/processor.py:316-318 | the median lies between any lower and upper bound of the samples |
| Combine.MedianSuppressesOneOutlier | src/modules/stacking/processor.py:318 | with three or more samples, one outlier does not move the median |
| Combine.MaxOf | src/modules/stacking/processor.py:322 | the maximum is one of the samples and no sample exceeds it |
| Combine.Kept | src/modules/stacking/processor.py:364-367 | the samples inside the band, no more than the column holds |
| Combine.KeptNone | src/modules/stacking/processor.py:364-371 | nothing is kept exactly when every sample lies outside the band |
| Combine.SigmaClipWithoutRejectionIsMean | src/modules/stacking/processor.py:345-375 | with no sample rejected, sigma clipping gives the plain mean |
| Combine.SigmaClipAllRejectedIsZero | src/modules/stacking/processor.py:367-373 | with every sample rejected, the pixel is 0 |
| Combine.SigmaClipOfConstant | src/modules/stacking/processor.py:345-375 | a constant column keeps its value under any non-negative band |
| Combine.SigmaClipKeepsSomeSample | src/modules/stacking/processor.py:349-364 | with the true standard deviation and both sigmas at least 1, some sample survives |
| Combine.SigmaClipCanBlankAPixel | src/modules/stacking/processor.py:353-373 | samples 0 and 10 with sigmas 0.5 (mean 5, std 5) give a pixel of 0 |
| Combine.StackImages | src/modules/stacking/processor.py:298-343 | None exactly for an empty stack or frames of different shapes; otherwise a frame of the first frame's shape |
| Combine.StackedSample | src/modules/stacking/processor.py:308-333 | each output sample is the clipped rule value of its column |
| Combine.UnknownMethodIsAverage | src/modules/stacking/processor.py:328-330 | an unknown method name stacks like "average" |
| Combine.CombinedOfConstant | src/modules/stacking/processor.py:310-330 | every rule maps a constant column to its value |
| Combine.StackOfCopiesIsTheFrame | src/modules/stacking/processor.py:298-339 | stacking copies of one frame gives that frame under every rule |
| Combine.MaximumStackDominates | src/modules/stacking/processor.py:320-322 | the maximum stack is at least every frame's sample |
| Combine.AverageAndMedianStayInRange | src/modules/stacking/processor.py:312-318 | the average and median stacks lie between the darkest and brightest frame |
| Combine.MedianStackSuppressesOneOutlier | src/modules/stacking/processor.py:316-318 | with three or more frames, the median stack ignores one outlying frame at a pixel |
| Combine.SigmaClipStackMatchesAverage | src/modules/stacking/processor.py:324-326 | where no sample is rejected, sigma clipping equals the average stack |
| Stacker.Override | src/modules/stacking/processor.py:56-65 | a setter argument of None keeps the old value; a given one replaces it |
| Stacker.LoadedUpTo | src/modules/stacking/processor.py:93-119 | loading keeps at most one frame per path |
| Stacker.LoadedAreDecoded | src/modules/stacking/processor.py:97-112 | every loaded frame is the decoding of its own path, in path order |
| Stacker.DecodedAreLoaded | src/modules/stacking/processor.py:97-119 | every path that decodes is loaded; a failing one is skipped |
| Stacker.LoadMarksSteps | src/modules/stacking/processor.py:114-115 | loading reports non-decreasing values in (0, 20] |
| Stacker.AlignerOfImplements | src/modules/stacking/processor.py:219-226 | the stacker's own detection and matching form an aligner |
| Stacker.WarpRow | src/modules/stacking/processor.py:231 | a warped row has the requested width |
| Stacker.Warp | src/modules/stacking/processor.py:230-231 | warpAffine's output has the reference's height and width |
| Stacker.AlignStep | src/modules/stacking/processor.py:211-235 | frame 0 is kept as is; a later frame with ten stars and a transform is warped; otherwise nothing is appended |
| Stacker.AlignedUpTo | src/modules/stacking/processor.py:204-242 | aligning keeps at most one frame per loaded frame |
| Stacker.AlignMarksSteps | src/modules/stacking/processor.py:214-238 | aligning reports non-decreasing values in [30, 70], starting at 30 |
| Stacker.AlignStepShape | src/modules/stacking/processor.py:228-232 | a warped frame has the reference's shape |
| Stacker.AlignedShareReferenceShape | src/modules/stacking/processor.py:204-241 | every aligned frame has the shape of the reference frame |
| Stacker.PipelineSucceedsIff | src/modules/stacking/processor.py:401-430 | a picture comes out exactly when two frames load, the reference has ten stars and two frames align |
| Stacker.PipelineKeepsFirstFrameShape | src/modules/stacking/processor.py:401-430 | when the enhancement keeps shape, the picture has the first loaded frame's shape |
| Stacker.PipelineOfCopies | src/modules/stacking/processor.py:401-430 | a burst of identical frames, each with enough stars, stacks to the enhanced frame itself |
| Stacker.PrepareLogSteps | src/modules/stacking/processor.py:405-417 | load and align progress starts at 0, never goes back and stays within [0, 70] |
| Stacker.ProcessLogSteps | src/modules/stacking/processor.py:401-430 | reported progress starts at 0, never goes back, stays within [0, 100] and ends at 100 on success |
| Stacker.AstroStacker.constructor | src/modules/stacking/processor.py:25-54 | empty lists, no reference, the flag clear and the default parameters |
| Stacker.AstroStacker.SetStarDetectionParams | src/modules/stacking/processor.py:56-65 | each given detection value replaces its parameter; the rest of the state stays |
| Stacker.AstroStacker.SetAlignmentParams | src/modules/stacking/processor.py:67-72 | only max_features and match_threshold can be set; the RANSAC threshold stays |
| Stacker.AstroStacker.SetStackingParams | src/modules/stacking/processor.py:74-85 | method, sigma_clip, the two sigmas and the rejection ratio are replaced when given |
| Stacker.AstroStacker.LoadImages | src/modules/stacking/processor.py:87-131 | a set flag stops before any path; otherwise the frames are the decodable paths, success iff at least two, and the first becomes the reference |
| Stacker.AstroStacker.DetectStars | src/modules/stacking/processor.py:133-185 | the detected stars under the current detection and feature parameters |
| Stacker.AstroStacker.MatchStars | src/modules/stacking/processor.py:251-296 | the transform under the current RANSAC threshold |
| Stacker.AstroStacker.AlignFrame | src/modules/stacking/processor.py:209-235 | the loop body's frame to append for frame i is the specified aligned step |
| Stacker.AstroStacker.AlignNext | src/modules/stacking/processor.py:204-241 | one pass appends frame i's step and reports frame i's progress value |
| Stacker.AstroStacker.AlignFrames | src/modules/stacking/processor.py:204-245 | the loop aligns every frame as specified, and succeeds iff two frames are aligned |
| Stacker.AstroStacker.AlignImages | src/modules/stacking/processor.py:187-249 | no frames or no reference changes nothing; fewer than ten reference stars or a set flag leaves the list empty; otherwise all frames are aligned and success means at least two |
| Stacker.AstroStacker.StackImages | src/modules/stacking/processor.py:298-343 | the combination of the aligned frames by the configured rule, reporting 75 and then 95 |
| Stacker.AstroStacker.PrepareStack | src/modules/stacking/processor.py:405-417 | installs the callback, clears the flag, reports 0, then loads and aligns as specified |
| Stacker.AstroStacker.ProcessStack | src/modules/stacking/processor.py:401-434 | the flag is cleared, the picture is the pipeline's, and the progress is the pipeline's log |
| Stacker.AstroStacker.CancelProcessing | src/modules/stacking/processor.py:436-438 | sets the cancel flag and nothing else |
| Stacker.AstroStacker.StackingInfo | src/modules/stacking/processor.py:440-448 | the frame counts and the three parameter groups |
| Stacker.EstimateAtFullHd | src/modules/stacking/processor.py:471-476 | at 1920x1080 the estimate is two seconds per frame |
| Stacker.EstimateGrowsWithFrames | src/modules/stacking/processor.py:471-476 | more frames of one size never take less time |
| Stacker.ValidateIff | src/modules/stacking/processor.py:478-500 | the paths are valid exactly when there are two or more, all open, and all have the first one's size |
| Stacker.ValidateFromNamesFirstFailure | src/modules/stacking/processor.py:490-498 | a reported failure names the first unreadable or mismatched path; all before it match |
| Stacker.ValidateImages | src/modules/stacking/processor.py:478-502 | the loop returns exactly the specified validation outcome |
| CameraRaw.ChannelSamples | src/modules/camera_raw/processor.py:425-427 | one sample per pixel, taken from the chosen channel |
| CameraRaw.Quantized | src/modules/camera_raw/processor.py:270-272 | each output pixel is its float pixel clipped to 8 bits |
| CameraRaw.ClipRgbOfByte | src/modules/camera_raw/processor.py:248-272 | converting a pixel to float and clipping it back gives the pixel itself |
| CameraRaw.Merge | src/modules/camera_raw/processor.py:403-408 | dict.update: u's keys take u's values, others keep theirs, the keys are the union |
| CameraRaw.ShallowHslMergeDropsParams | src/modules/camera_raw/processor.py:407 | a preset colour replaces the whole HSL entry, dropping parameters it does not name |
| CameraRaw.Updated | src/modules/camera_raw/processor.py:403-408 | every group is updated with its preset section, and required keys survive |
| CameraRaw.UpdateIsIdempotent | src/modules/camera_raw/processor.py:397-415 | loading the same preset twice equals loading it once |
| CameraRaw.MergeIsIdempotent | src/modules/camera_raw/processor.py:403-408 | updating a dictionary twice with the same section is updating it once |
| CameraRaw.Scale | src/modules/camera_raw/processor.py:254-267 | one channel is multiplied by the gain; the others stay |
| CameraRaw.NeutralColorKeepsPicture | src/modules/camera_raw/processor.py:244-272 | with temperature and tint 0, the colour step returns its input |
| CameraRaw.ColorKeepsGreenUnlessGreenTint | src/modules/camera_raw/processor.py:251-267 | green changes only under a negative tint |
| CameraRaw.GreenTintKeepsRedAndBlue | src/modules/camera_raw/processor.py:261-267 | a negative tint at temperature 0 leaves red and blue alone and never darkens green |
| CameraRaw.WarmPixel | src/modules/camera_raw/processor.py:251-255 | a positive temperature up to 2000 never lowers red, never raises blue and keeps green |
| CameraRaw.CoolPixel | src/modules/camera_raw/processor.py:251-258 | a negative temperature down to −2000 never raises red, never lowers blue and keeps green |
| CameraRaw.TemperatureDirections | src/modules/camera_raw/processor.py:251-258 | in the slider range, warming never lowers red or raises blue, and cooling does the reverse |
| CameraRaw.MagentaTintRaisesRedAndBlue | src/modules/camera_raw/processor.py:261-265 | a positive tint at temperature 0 never lowers red or blue and keeps green |
| CameraRaw.LightPollutionChangesOnlyDarkSamples | src/modules/camera_raw/processor.py:318-332 | the step never brightens a sample; it changes exactly the non-zero samples below 128·(1 − f), each to the floor of x·(1 − f/2) |
| CameraRaw.To8Bit | src/modules/camera_raw/processor.py:124 | `v / 256` truncated: the high byte |
| CameraRaw.To8BitMonotone | src/modules/camera_raw/processor.py:124 | the conversion keeps the order of samples |
| CameraRaw.To8BitKeepsHighByte | src/modules/camera_raw/processor.py:124 | hi·256 + lo converts to hi |
| CameraRaw.To8BitPicture | src/modules/camera_raw/processor.py:116-126 | same size, each sample converted |
| CameraRaw.Histogram | src/modules/camera_raw/processor.py:425-431 | 256 bins, bin k counting the samples equal to k |
| CameraRaw.HistogramTotal | src/modules/camera_raw/processor.py:425-431 | the bins add up to the number of samples |
| CameraRaw.Histograms | src/modules/camera_raw/processor.py:417-438 | empty without a processed image; otherwise red, green, blue and luminance |
| CameraRaw.HistogramsCountEveryPixel | src/modules/camera_raw/processor.py:417-438 | each histogram has 256 bins adding up to width × height |
| CameraRaw.RawDispatchByExtension | src/modules/camera_raw/processor.py:97 | a file goes to the RAW decoder exactly when its lower-cased extension is one of the six RAW extensions |
| CameraRaw.DotFileIsNotRaw | src/modules/camera_raw/processor.py:97 | a file named ".cr2" has no suffix and goes to the standard decoder |
| CameraRaw.NeutralProcessingKeepsPicture | src/modules/camera_raw/processor.py:350-365 | with every basic, colour and astro value 0, processing returns the original |
| CameraRaw.ResetProcessingKeepsPicture | src/modules/camera_raw/processor.py:182-204 | after a reset, processing returns the original |
| CameraRaw.LightPollutionAloneIsRemoval | src/modules/camera_raw/processor.py:274-295 | with only light-pollution removal set, processing is the removal step |
| CameraRaw.ScaleChannel | src/modules/camera_raw/processor.py:254-267 | the in-place channel multiply scales exactly that channel of every pixel |
| CameraRaw.FloatCopy | src/modules/camera_raw/processor.py:248 | a fresh float buffer holding each pixel |
| CameraRaw.ApplyTemperature | src/modules/camera_raw/processor.py:251-258 | the buffer becomes the temperature-scaled pixels |
| CameraRaw.ApplyTint | src/modules/camera_raw/processor.py:261-267 | the buffer becomes the tint-scaled pixels |
| CameraRaw.ZeroValues | src/modules/camera_raw/processor.py:184-191 | the same keys, every value 0 |
| CameraRaw.ZeroHsl | src/modules/camera_raw/processor.py:194-196 | the same colours with the same parameter keys, every value 0 |
| CameraRaw.CameraRawProcessor.constructor | src/modules/camera_raw/processor.py:29-89 | no images and the default adjustment groups |
| CameraRaw.CameraRawProcessor.Decode | src/modules/camera_raw/processor.py:96-162 | decodes by extension: RAW through rawpy at 16 bits converted to 8, others through PIL as RGB |
| CameraRaw.CameraRawProcessor.LoadImage | src/modules/camera_raw/processor.py:91-162 | records the path; succeeds iff decoding does, and then original and processed are the decoded picture; a non-RAW file PIL identifies but cannot decode still replaces the original |
| CameraRaw.CameraRawProcessor.ResetAdjustments | src/modules/camera_raw/processor.py:182-204 | every value of the five groups becomes 0 with the same keys; the tone curve returns to its defaults |
| CameraRaw.CameraRawProcessor.LoadPreset | src/modules/camera_raw/processor.py:397-415 | an unreadable preset changes nothing; otherwise the groups become the merged ones |
| CameraRaw.CameraRawProcessor.ApplyColorAdjustments | src/modules/camera_raw/processor.py:242-272 | the picture after the temperature and tint steps and the clip, or the input when all values are 0 |
| CameraRaw.CameraRawProcessor.RemoveLightPollution | src/modules/camera_raw/processor.py:318-332 | the picture with each dark sample dimmed, or the input when the removal is not positive |
| CameraRaw.CameraRawProcessor.ApplyAstroAdjustments | src/modules/camera_raw/processor.py:274-295 | stars, background, light pollution and nebula in that order, each only when positive |
| CameraRaw.CameraRawProcessor.ProcessImage | src/modules/camera_raw/processor.py:350-369 | None without an original or with an undecodable one; otherwise basic, then colour, then astro, stored as the processed image |
| CameraRaw.CameraRawProcessor.HistogramData | src/modules/camera_raw/processor.py:417-438 | empty without a processed image; otherwise the four named histograms |
| StackingUi.AddedUpToFacts | src/modules/stacking/ui.py:513-543 | the old list stays as a prefix, exactly the new files that open join, and no duplicate gets in |
| StackingUi.Delete | src/modules/stacking/ui.py:569-570 | `del s[i]` for an index in range; otherwise nothing |
| StackingUi.Positions | src/modules/stacking/ui.py:559-563 | one zero-based position per selected serial number |
| StackingUi.RemoveSelectedKeepsTheRest | src/modules/stacking/ui.py:552-570 | for distinct serials, exactly the unselected entries remain, in order; out-of-range serials are ignored |
| StackingUi.PresetsTradeSpeedForQuality | src/modules/stacking/ui.py:655-685 | only three names are presets; from fast to quality the threshold falls, the area window widens, features grow and RANSAC tightens |
| StackingUi.BalancedIsTheStackerDefault | src/modules/stacking/ui.py:665-673 | "balanced" equals the stacker's default detection and alignment values but uses the median |
| StackingUi.Decimal | src/modules/stacking/ui.py:782 | `str(n)` is a non-empty string of digits |
| StackingUi.DecimalRoundTrip | src/modules/stacking/ui.py:782 | the number in the generated name reads back as the time it came from |
| StackingUi.AutoOutputBesideFirstImage | src/modules/stacking/ui.py:779-783 | the generated output is stacked_<time>.jpg in the first image's folder |
| StackingUi.DispatchCases | src/modules/stacking/ui.py:833-849 | cancelled iff the flag is set; completed iff an uncancelled result was saved; otherwise an error |
| StackingUi.ImageInfoShowsTheEstimate | src/modules/stacking/ui.py:598-623 | the prompt iff no images; one image asks for two; otherwise the estimate, in seconds below a minute |
| StackingUi.LoadedValues | src/modules/stacking/ui.py:730-764 | without a readable settings file the Tk variables keep their initial values |
| StackingUi.SaveThenLoadRestores | src/modules/stacking/ui.py:699-764 | loading what save_settings wrote restores all ten values |
| StackingUi.EmptyFileIsNoFile | src/modules/stacking/ui.py:737-756 | a settings file without any of the keys loads like no file: every `.get` falls back to its default |
| StackingUi.StackingWindow.constructor | src/modules/stacking/ui.py:23-44 | an empty list, no run, and the ten values load_settings gives for the stored settings file |
| StackingUi.StackingWindow.SaveSettings | src/modules/stacking/ui.py:699-721 | the dictionary written holds the ten current values, and loading it restores them |
| StackingUi.StackingWindow.UpdateImageInfo | src/modules/stacking/ui.py:598-623 | the text for the current count and first image |
| StackingUi.StackingWindow.AddImageFiles | src/modules/stacking/ui.py:513-543 | the list becomes the deduplicated addition of the files that open; the text is refreshed |
| StackingUi.DeleteInTurn | src/modules/stacking/ui.py:568-570 | the deletion loop leaves the list with each index deleted in turn, an out-of-range index skipped (the list DeleteEach describes) |
| StackingUi.StackingWindow.RemoveSelected | src/modules/stacking/ui.py:552-596 | the list loses the selected rows; nothing happens without a selection |
| StackingUi.StackingWindow.LoadPreset | src/modules/stacking/ui.py:653-697 | a known name sets the seven values; another name changes nothing |
| StackingUi.StackingWindow.UpdateStackerParams | src/modules/stacking/ui.py:801-822 | detection, max_features, RANSAC, method and sigmas go to the stacker; match_threshold, the other parameters, the frames, the progress and the flag keep theirs |
| StackingUi.StackingWindow.StartStacking | src/modules/stacking/ui.py:766-799 | starts iff two images validate, filling in the output path when empty, passing the parameters on and starting from progress 0; a refusal changes nothing, and the window's values and the stacker's frames stay either way |
| StackingUi.StackingWindow.CancelStacking | src/modules/stacking/ui.py:864-868 | only a live run sets the stacker's cancel flag; the stacker's parameters, frames and progress stay |
| StackingUi.StackingWindow.ProcessStacking | src/modules/stacking/ui.py:824-915 | the outcome is the dispatch; completion shows the result at 100; cancellation resets progress to 0; every outcome ends the run |
| Viewer.RotationsAreQuarterTurns | src/main_window.py:1824-1834 | both turns keep the angle in {0, 90, 180, 270} |
| Viewer.RotationsUndoEachOther | src/main_window.py:1824-1834 | a left turn undoes a right one and vice versa; four turns return |
| Viewer.ZoomStaysInRange | src/main_window.py:1764-1774 | both keep the factor in [0.1, 5.0]; in never shrinks and out never grows; each changes iff not at its bound |
| Viewer.FittedFits | src/main_window.py:1795-1801 | the fitted factor is in [0.1, 1.0]; above 0.1 the picture fits the room, and below 1 it fills one side |
| Viewer.FitZoomFits | src/main_window.py:1776-1801 | the same for zoom_fit with the 20-pixel margin and the rotated size |
| Viewer.NavigationStaysInRange | src/main_window.py:1572-1580 | from a valid position, previous/next stay valid and move by at most one |
| Viewer.RemovalKeepsIndexInRange | src/main_window.py:2028-2033 | after a removal the position is valid in the shorter list |
| Viewer.GridColumns | src/main_window.py:1234-1238 | at least one column |
| Viewer.CellsAreDistinct | src/main_window.py:1238-1242 | cells fill the grid row by row, and distinct images get distinct cells |
| Viewer.ColumnsFitTheCanvas | src/main_window.py:1238 | the column count is the number of whole cells (thumbnail width + 20) that fit the canvas width |
| Viewer.SupportedByExtension | src/main_window.py:95-99 | a file is supported exactly when its lower-cased extension is one of the fourteen |
| Viewer.ListedUpToSound | src/main_window.py:757-776 | every listed entry is a supported path with a readable size, no more entries than paths |
| Viewer.ListedUpToComplete | src/main_window.py:757-776 | every supported path with a readable size is listed |
| Viewer.ListedEmptyIff | src/main_window.py:757-785 | nothing is listed exactly when no path qualifies |
| Viewer.Range | src/main_window.py:816 | the positions 0 to n − 1 |
| Viewer.LoadingQueue | src/main_window.py:812-825 | one item per image |
| Viewer.EmptyListBreaksTheQueue | src/main_window.py:827 | the queue as written fails on an empty list |
| Viewer.UnsupportedSelectionBreaksTheQueue | src/main_window.py:751-827 | the queue as written fails exactly when no selected file is supported with a readable size |
| Viewer.BySizeIsTotal | src/main_window.py:825 | size then position is a total order |
| Viewer.Positions | src/main_window.py:818 | one position per item, in order |
| Viewer.LoadingOrderIsSortedPermutation | src/main_window.py:814-825 | every position appears once, ordered by size and then by position |
| Viewer.LoadingQueueIsSortedPermutation | src/main_window.py:812-825 | the queue holds every image once, not loaded, with its own size and path, ascending by size with ties in list order |
| Viewer.LoadConfig | src/main_window.py:1950-1970 | without a stored configuration, the defaults; otherwise stored values are kept and missing default keys are added |
| Viewer.ImageViewer.constructor | src/main_window.py:86-118 | empty list, position 0, factor 1, no rotation, thumbnails 150 wide, and the configuration load_config gives: stored keys kept, missing defaults added with home, nothing else |
| Viewer.ImageViewer.RotateLeft | src/main_window.py:1824-1828 | a quarter turn back only while a picture is shown |
| Viewer.ImageViewer.RotateRight | src/main_window.py:1830-1834 | a quarter turn on only while a picture is shown |
| Viewer.ImageViewer.ResetRotation | src/main_window.py:1836-1840 | angle 0 only while a picture is shown |
| Viewer.ImageViewer.ZoomIn | src/main_window.py:1764-1768 | one step up, capped, only while a picture is shown |
| Viewer.ImageViewer.ZoomOut | src/main_window.py:1770-1774 | one step down, floored, only while a picture is shown |
| Viewer.ImageViewer.ZoomFit | src/main_window.py:1776-1801 | the fitted factor of the rotated picture, only while one is shown |
| Viewer.ImageViewer.ShowPreview | src/main_window.py:1362-1366 | a valid position becomes current; others change nothing |
| Viewer.ImageViewer.OnImageLoaded | src/main_window.py:1475-1486 | the picture is shown unrotated at the fitted factor |
| Viewer.ImageViewer.OnImageLoadError | src/main_window.py:1488-1506 | the picture is dropped; factor and angle stay |
| Viewer.ImageViewer.ClearPreview | src/main_window.py:1544-1556 | no picture, factor 1, angle 0 |
| Viewer.ImageViewer.PreviousImage | src/main_window.py:1572-1575 | one back when not at the start |
| Viewer.ImageViewer.NextImage | src/main_window.py:1577-1580 | one on when not at the end |
| Viewer.ImageViewer.FirstImage | src/main_window.py:1992-1996 | position 0 when there are images |
| Viewer.ImageViewer.LastImage | src/main_window.py:1998-2002 | the last position when there are images |
| Viewer.ImageViewer.RemoveCurrentImage | src/main_window.py:2015-2034 | when confirmed, the current entry is removed and the position adjusted; an emptied list clears the preview |
| Viewer.ImageViewer.GridLayout | src/main_window.py:1228-1242 | the cell of every image, in order |
| Viewer.ImageViewer.ClearImages | src/main_window.py:1174-1183 | empty list at position 0 and a cleared preview |
| Viewer.ListFiles | src/main_window.py:757-782 | the listing loop yields, in the order given, one entry per accepted path whose size can be read (the list Listed describes) |
| Viewer.ImageViewer.LoadImages | src/main_window.py:751-801 | the list is the supported, sized files in order; position 0; the queue is the size-ordered queue (the corrected one: empty, not a raise, for an empty list) |
| Viewer.ImageViewer.CreateSortedLoadingQueue | src/main_window.py:812-825 | the size-ordered loading queue of the current list, following the corrected definition: an empty list gives an empty queue where the code raises |

## Left out

- Threads and the Tk event loop: the processing thread, `window.after` callbacks and the thumbnail worker pool are sequential calls in the model; a cancel flag set by another thread in the middle of a run is not modelled.
- Widgets, dialogs, labels and drawing (tree views, progress bars, `update_preview_image`, the error text on the canvas) are left out; each label text is a value and each Tk variable a field.
- File I/O: `Image.open`, `os.path.getsize`, rawpy, JSON reading and writing, `save_result` and `save_preset` are given functions or `Option` parameters; `save_settings` returns the dictionary it would write and `load_settings` takes the parsed file as a parameter. A preset, settings file or configuration that is not a JSON object of the expected shape is not modelled.
- The internals of OpenCV, numpy and PIL (grey conversion, blur, threshold, contour finding, RANSAC, warpAffine, `np.std`, the PIL enhancers and filters) are given functions; their float32 rounding is not modelled, and sample arithmetic is exact.
- Exceptions raised by library calls are not modelled; where the source catches one and falls back (sigma_clip_stack returning the mean, enhance_result returning its input), the model takes the normal path.
- Metadata extraction (`_extract_metadata`) and logging/printing are left out.
- StackingUi.StackingWindow.constructor: a settings file whose section is not a dictionary (load_settings then stops part-way, inside its try block) or whose values have other types is not modelled.
- StackingUi.StackingWindow.SaveSettings: writing the file, and the message boxes, are not modelled.
- CameraRaw.CameraRawProcessor.LoadImage: a RAW file rawpy opens but cannot post-process sets `raw_image` only, which is left out with the metadata; the undecodable standard image is modelled only as "not decodable", not its format or size.
- Viewer.ZoomStaysInRange: the zoom factor is a Python float; the model uses exact reals, so the round trips (zoom in then out returns the factor) hold in real arithmetic only. In floats, 0.2 + 0.1 is 0.30000000000000004.
- Viewer.FittedFits: the fitted factor's "fills one side exactly" holds in real arithmetic only; in floats (room / w) · w can miss room by a rounding step.
- Viewer.FitZoomFits: as for Viewer.FittedFits, its exact-fit statement holds in real arithmetic only.
- Common.Lower: lower-cases ASCII letters only; Python's Unicode case folding is not modelled.
- StackingUi.Decimal: only the decimal text of the time is modelled; `{:.0f}` and `{:.1f}` number formatting of the labels is represented by the real value shown.
- The clock is a parameter (`seconds` of StartStacking); `time.time()` is not modelled.
- Viewer.ImageViewer.RemoveCurrentImage: the confirmation dialog is the `confirmed` parameter; the earlier definition of remove_current_image (src/main_window.py:1582) is overridden by the later one and is not modelled.
- Viewer.ImageViewer.ShowPreview: decoding the picture (including the .arw branch) happens on a thread and is not modelled; the decoded picture arrives through OnImageLoaded.
- Viewer.ImageViewer.LoadImages: the asynchronous thumbnail loading started after the queue is built is not modelled.
- Non-numeric preset values and HSL values that are not dictionaries are not modelled; parameter groups map names to reals.

## Findings

| source | as written | input that shows it | evidently intended | confidence | as-written member | corrected member |
|---|---|---|---|---|---|---|
| src/main_window.py:812-827 | create_sorted_loading_queue reads `queue_items[0]` for its log line even when the list is empty, raising IndexError after every load that lists nothing | choosing only `notes.txt` in the open-files dialog, whose all-files filter (src/main_window.py:646-655) lets unsupported files through: load_images (751-791) lists nothing, then builds the queue | an empty list yields an empty queue | not executed | Viewer.UnsupportedSelectionBreaksTheQueue | Viewer.LoadingQueueIsSortedPermutation |
