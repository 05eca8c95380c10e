/**
 * Template alignment and its similarity check (ImageUtil.alignToReference,
 * ImageUtil.alignToReferenceWithValidation and ImageUtil.calculateImageSimilarity).
 *
 * OpenCV stays abstract: a `Vision` value supplies what the feature detector, the matcher, the
 * homography solver and the warp report for given images, and the code's own decisions around
 * those calls are modelled exactly.
 */
module ImageAlignment {
  import opened Results
  import opened MatchRanking

  /** A 3x3 projective transform as OpenCV returns it; `Empty` when RANSAC found none. */
  datatype Homography = Empty | Matrix(entries: seq<real>)

  /** Why alignment raised ImageProcessingException. */
  datatype AlignError =
    | ImageConversionFailed   // an IOException converting between BufferedImage and Mat
    | InsufficientMatches     // fewer than 4 matches survived selection
    | HomographyFailed        // findHomography returned an empty matrix

  /**
   * What the OpenCV calls answer for images of type `I`:
   * - `encodes(i)`: `toMat(i)` succeeds (its JPEG round trip throws IOException otherwise);
   * - `keypointCount(i)`: how many ORB keypoints the blue channel of `i` yields;
   * - `matchFeatures(a, b)`: the brute-force Hamming matches of `a`'s descriptors against `b`'s;
   * - `findHomography(reference, image, kept)`: RANSAC's homography between the keypoints of
   *   `reference` and of `image` that the kept matches pair up (by query and train index);
   * - `warpPerspective(i, h, cols, rows)`: `i` warped through `h` onto a cols x rows canvas and
   *   converted back to a BufferedImage, or None when that conversion throws IOException;
   * - `cols(i)`, `rows(i)`: the width and height of `i` as a Mat.
   */
  datatype Vision<!I> = Vision(
    encodes: I -> bool,
    keypointCount: I -> nat,
    matchFeatures: (I, I) -> seq<Match>,
    findHomography: (I, I, seq<Match>) -> Homography,
    warpPerspective: (I, Homography, nat, nat) -> Option<I>,
    cols: I -> nat,
    rows: I -> nat)

  /** `Math.min(1.0, Math.max(0.0, x))`. */
  function Clamp(x: real): real {
    if x < 0.0 then 0.0 else if x > 1.0 then 1.0 else x
  }

  /**
   * The similarity score of `calculateImageSimilarity(source, target)`: the fraction of good
   * matches (distance below 50) among the smaller image's keypoints, clamped to [0, 1]; 0 when
   * either image yields no keypoints, when there are no matches at all, or on an IOException.
   */
  function Similarity<I>(source: I, target: I, cv: Vision<I>): (score: real)
    ensures 0.0 <= score <= 1.0
  {
    if !cv.encodes(source) || !cv.encodes(target) then 0.0
    else
      var k1, k2 := cv.keypointCount(source), cv.keypointCount(target);
      if k1 == 0 || k2 == 0 then 0.0
      else
        var matches := cv.matchFeatures(source, target);
        if |matches| == 0 then 0.0
        else Clamp(CountGood(matches) as real / Min(k1, k2) as real)
  }

  /**
   * calculateImageSimilarity: sorts the matches by distance (which does not change the count),
   * counts those below the good-match distance and normalises by the smaller keypoint count.
   */
  method CalculateImageSimilarity<I>(sourceImage: I, targetImage: I, cv: Vision<I>) returns (score: real)
    ensures score == Similarity(sourceImage, targetImage, cv)
    ensures 0.0 <= score <= 1.0
  {
    if !cv.encodes(sourceImage) || !cv.encodes(targetImage) {
      return 0.0;  // IOException from toMat: logged, scored 0
    }
    var keypoints1, keypoints2 := cv.keypointCount(sourceImage), cv.keypointCount(targetImage);
    if keypoints1 == 0 || keypoints2 == 0 {
      return 0.0;
    }
    var found := cv.matchFeatures(sourceImage, targetImage);
    if |found| == 0 {
      return 0.0;
    }
    var matchList := SortByDistance(found);
    var numGoodMatches := CountGoodMatches(matchList);
    CountGoodIsOrderFree(matchList, found);
    var minKeypoints := Min(keypoints1, keypoints2);
    if minKeypoints == 0 {
      return 0.0;
    }
    var similarityScore := numGoodMatches as real / minKeypoints as real;
    score := Clamp(similarityScore);
  }

  /** The counting loop of calculateImageSimilarity: how many matches lie below the good-match distance. */
  method CountGoodMatches(matchList: seq<Match>) returns (numGoodMatches: nat)
    ensures numGoodMatches == CountGood(matchList)
  {
    numGoodMatches := 0;
    for i := 0 to |matchList|
      invariant numGoodMatches == CountGood(matchList[..i])
    {
      assert matchList[..i + 1][..i] == matchList[..i];
      if matchList[i].distance < GOOD_MATCH_DISTANCE {
        numGoodMatches := numGoodMatches + 1;
      }
    }
    assert matchList[..|matchList|] == matchList;
  }

  /**
   * Steps 1 to 6 of alignment: the image warped into the reference's frame, or the
   * ImageProcessingException raised on the way. The homography is estimated from the
   * `KeepCount` closest matches of the reference's features against the image's.
   */
  function Warp<I>(imageToAlign: I, referenceImage: I, cv: Vision<I>): (r: Result<I, AlignError>)
    ensures r.Success? ==> cv.encodes(referenceImage) && cv.encodes(imageToAlign)
    ensures r.Success? ==> exists h: Homography ::
      h.Matrix? && cv.warpPerspective(imageToAlign, h, cv.cols(referenceImage), cv.rows(referenceImage)) == Some(r.value)
  {
    if !cv.encodes(referenceImage) || !cv.encodes(imageToAlign) then Failure(ImageConversionFailed)
    else
      var kept := GoodMatches(cv.matchFeatures(referenceImage, imageToAlign));
      if |kept| < MIN_HOMOGRAPHY_MATCHES then Failure(InsufficientMatches)
      else
        var homography := cv.findHomography(referenceImage, imageToAlign, kept);
        if homography.Empty? then Failure(HomographyFailed)
        else
          match cv.warpPerspective(imageToAlign, homography, cv.cols(referenceImage), cv.rows(referenceImage))
          case None => Failure(ImageConversionFailed)
          case Some(aligned) => Success(aligned)
  }

  /**
   * alignToReferenceWithValidation: the warped image, unless a positive threshold was given and the
   * warped image scores below it against the reference, in which case the original image.
   */
  function Aligned<I>(imageToAlign: I, referenceImage: I, minSimilarityThreshold: real, cv: Vision<I>)
    : (r: Result<I, AlignError>)
    ensures r.Failure? ==> r == Warp(imageToAlign, referenceImage, cv)
    ensures r.Success? ==> r.value == imageToAlign || Warp(imageToAlign, referenceImage, cv) == Success(r.value)
  {
    match Warp(imageToAlign, referenceImage, cv)
    case Failure(e) => Failure(e)
    case Success(result) =>
      if minSimilarityThreshold > 0.0 && Similarity(result, referenceImage, cv) < minSimilarityThreshold
      then Success(imageToAlign)
      else Success(result)
  }

  method AlignToReferenceWithValidation<I>(imageToAlign: I, referenceImage: I,
                                           minSimilarityThreshold: real, cv: Vision<I>)
    returns (r: Result<I, AlignError>)
    ensures r == Aligned(imageToAlign, referenceImage, minSimilarityThreshold, cv)
  {
    if !cv.encodes(referenceImage) || !cv.encodes(imageToAlign) {
      return Failure(ImageConversionFailed);
    }
    var matchList := SortByDistance(cv.matchFeatures(referenceImage, imageToAlign));
    var numGoodMatches := |matchList| / 10;
    numGoodMatches := Max(numGoodMatches, MIN_HOMOGRAPHY_MATCHES);
    matchList := matchList[..Min(numGoodMatches, |matchList|)];
    if |matchList| < MIN_HOMOGRAPHY_MATCHES {
      return Failure(InsufficientMatches);
    }
    var homography := cv.findHomography(referenceImage, imageToAlign, matchList);
    if homography.Empty? {
      return Failure(HomographyFailed);
    }
    var aligned := cv.warpPerspective(imageToAlign, homography, cv.cols(referenceImage), cv.rows(referenceImage));
    if aligned.None? {
      return Failure(ImageConversionFailed);
    }
    var result := aligned.value;
    if minSimilarityThreshold > 0.0 {
      var similarity := CalculateImageSimilarity(result, referenceImage, cv);
      if similarity < minSimilarityThreshold {
        return Success(imageToAlign);  // poor alignment: the original image
      }
    }
    return Success(result);
  }

  /** alignToReference: alignment without validation, that is with threshold 0. */
  method AlignToReference<I>(imageToAlign: I, referenceImage: I, cv: Vision<I>) returns (r: Result<I, AlignError>)
    ensures r == Warp(imageToAlign, referenceImage, cv)
  {
    r := AlignToReferenceWithValidation(imageToAlign, referenceImage, 0.0, cv);
    ThresholdZeroSkipsValidation(imageToAlign, referenceImage, 0.0, cv);
  }

  // ---------------------------------------------------------------------------------------------
  // Properties of alignment
  // ---------------------------------------------------------------------------------------------

  /** With both images convertible, alignment fails for lack of matches exactly when fewer than 4 were found. */
  lemma FewerThanFourMatchesFail<I>(imageToAlign: I, referenceImage: I, cv: Vision<I>)
    requires cv.encodes(referenceImage) && cv.encodes(imageToAlign)
    ensures Warp(imageToAlign, referenceImage, cv) == Failure(InsufficientMatches)
        <==> |cv.matchFeatures(referenceImage, imageToAlign)| < MIN_HOMOGRAPHY_MATCHES
  {
    var ms := cv.matchFeatures(referenceImage, imageToAlign);
    assert |SortByDistance(ms)| == |ms|;
    assert |GoodMatches(ms)| == KeepCount(|ms|);
  }

  /**
   * With at least 4 matches alignment always reaches the homography solver, which it gives the
   * `KeepCount` closest matches; it fails with HomographyFailed exactly when the solver's matrix is empty.
   */
  lemma FourMatchesReachHomography<I>(imageToAlign: I, referenceImage: I, cv: Vision<I>)
    requires cv.encodes(referenceImage) && cv.encodes(imageToAlign)
    requires |cv.matchFeatures(referenceImage, imageToAlign)| >= MIN_HOMOGRAPHY_MATCHES
    ensures Warp(imageToAlign, referenceImage, cv) != Failure(InsufficientMatches)
    ensures Warp(imageToAlign, referenceImage, cv) == Failure(HomographyFailed)
        <==> cv.findHomography(referenceImage, imageToAlign, GoodMatches(cv.matchFeatures(referenceImage, imageToAlign))).Empty?
  {
    var ms := cv.matchFeatures(referenceImage, imageToAlign);
    assert |SortByDistance(ms)| == |ms|;
    assert |GoodMatches(ms)| == KeepCount(|ms|) >= MIN_HOMOGRAPHY_MATCHES;
  }

  /** The threshold never turns a success into a failure or changes the reported error. */
  lemma ThresholdNeverCausesFailure<I>(imageToAlign: I, referenceImage: I, threshold: real, cv: Vision<I>)
    ensures Aligned(imageToAlign, referenceImage, threshold, cv).Failure?
        <==> Warp(imageToAlign, referenceImage, cv).Failure?
    ensures Warp(imageToAlign, referenceImage, cv).Failure? ==>
      Aligned(imageToAlign, referenceImage, threshold, cv) == Warp(imageToAlign, referenceImage, cv)
  {
  }

  /** A threshold of zero or below skips validation: the warped image is returned as it is. */
  lemma ThresholdZeroSkipsValidation<I>(imageToAlign: I, referenceImage: I, threshold: real, cv: Vision<I>)
    requires threshold <= 0.0
    ensures Aligned(imageToAlign, referenceImage, threshold, cv) == Warp(imageToAlign, referenceImage, cv)
  {
  }

  /** Soft failure: a warp scoring below a positive threshold yields the original image, not an error. */
  lemma PoorAlignmentReturnsOriginal<I>(imageToAlign: I, referenceImage: I, threshold: real, cv: Vision<I>, warped: I)
    requires threshold > 0.0
    requires Warp(imageToAlign, referenceImage, cv) == Success(warped)
    requires Similarity(warped, referenceImage, cv) < threshold
    ensures Aligned(imageToAlign, referenceImage, threshold, cv) == Success(imageToAlign)
  {
  }

  /** Any warped image that alignment returns scored at least the threshold against the reference. */
  lemma ReturnedWarpPassedValidation<I>(imageToAlign: I, referenceImage: I, threshold: real, cv: Vision<I>, warped: I)
    requires Warp(imageToAlign, referenceImage, cv) == Success(warped)
    ensures Similarity(warped, referenceImage, cv) >= threshold ==>
      Aligned(imageToAlign, referenceImage, threshold, cv) == Success(warped)
    ensures (threshold > 0.0 && warped != imageToAlign
             && Aligned(imageToAlign, referenceImage, threshold, cv) == Success(warped))
      ==> Similarity(warped, referenceImage, cv) >= threshold
  {
  }

  /** Scores never exceed 1, so a threshold above 1 makes every successful warp soft-fail. */
  lemma ThresholdAboveOneAlwaysSoftFails<I>(imageToAlign: I, referenceImage: I, threshold: real, cv: Vision<I>)
    requires threshold > 1.0
    requires Warp(imageToAlign, referenceImage, cv).Success?
    ensures Aligned(imageToAlign, referenceImage, threshold, cv) == Success(imageToAlign)
  {
  }

  /**
   * The warped image has the reference's dimensions, provided OpenCV's warp honours the canvas size
   * it is given.
   */
  lemma WarpHasReferenceSize<I>(imageToAlign: I, referenceImage: I, cv: Vision<I>, warped: I)
    requires forall h, w ::
      cv.warpPerspective(imageToAlign, h, cv.cols(referenceImage), cv.rows(referenceImage)) == Some(w)
      ==> cv.cols(w) == cv.cols(referenceImage) && cv.rows(w) == cv.rows(referenceImage)
    requires Warp(imageToAlign, referenceImage, cv) == Success(warped)
    ensures cv.cols(warped) == cv.cols(referenceImage) && cv.rows(warped) == cv.rows(referenceImage)
  {
  }

  // ---------------------------------------------------------------------------------------------
  // Properties of the similarity score
  // ---------------------------------------------------------------------------------------------

  /** The score is 0 whenever either image has no keypoints or no match was found. */
  lemma SimilarityWithoutFeaturesIsZero<I>(source: I, target: I, cv: Vision<I>)
    requires cv.keypointCount(source) == 0 || cv.keypointCount(target) == 0
          || cv.matchFeatures(source, target) == []
    ensures Similarity(source, target, cv) == 0.0
  {
  }

  /**
   * When there are no more good matches than keypoints in the smaller image, the clamp is inactive
   * and the score is exactly the ratio of good matches to that keypoint count.
   */
  lemma SimilarityIsGoodMatchRatio<I>(source: I, target: I, cv: Vision<I>)
    requires cv.encodes(source) && cv.encodes(target)
    requires cv.keypointCount(source) > 0 && cv.keypointCount(target) > 0
    requires CountGood(cv.matchFeatures(source, target)) <= Min(cv.keypointCount(source), cv.keypointCount(target))
    ensures Similarity(source, target, cv) * Min(cv.keypointCount(source), cv.keypointCount(target)) as real
         == CountGood(cv.matchFeatures(source, target)) as real
  {
    var k := Min(cv.keypointCount(source), cv.keypointCount(target)) as real;
    var g := CountGood(cv.matchFeatures(source, target)) as real;
    if cv.matchFeatures(source, target) != [] {
      RatioWithinUnit(g, k);
    }
  }

  /** A count of at most `k` divided by a positive `k` lies in [0, 1] and scales back to the count. */
  lemma RatioWithinUnit(g: real, k: real)
    requires 0.0 < k && 0.0 <= g <= k
    ensures 0.0 <= g / k <= 1.0 && (g / k) * k == g
  {
    var q := g / k;
    assert q * k == g;
    assert (1.0 - q) * k == k - g;
  }
}
