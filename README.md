# sc-trade-companion capture-to-words core, in Dafny

This project models the core of the sc-trade-companion screen-reading pipeline and proves properties
of the model. The pipeline turns a kiosk screenshot into located words and then into a commodity
submission. The model covers four parts:

- **Template alignment and similarity scoring** (`ImageUtil`).
  - OpenCV stays abstract. A `Vision` value says what the feature detector, the Hamming matcher,
    the homography solver and the warp answer for given images.
  - The code's own decisions around those calls are modelled exactly:
    - sorting the matches by distance;
    - keeping the best `max(n/10, 4)`, capped at `n`;
    - failing on fewer than 4 kept matches or an empty homography;
    - soft-failing to the *original* image when a positive threshold is not met;
    - the good-match ratio that makes up the similarity score.
- **Pixel-colour routines** (`ImageUtil`): in-place colour inversion, the average colour of a
  rectangle and the dominant colour of a rectangle. Images are `array2<Color>` indexed `[x, y]`.
- **The native OCR bridge** (`OneOcr`).
  - The engine is foreign. An `Engine` value gives its answers: which library loads, the status of
    each call, and the recognition result.
  - A `NativeWorld` object holds the process-wide DLL search directory and the log of native calls.
  - Modelled: the search-path discipline of the constructor, the checked calls, the BGRA image
    descriptor, the ASCII + NUL string encoding, and the walk that flattens lines and words into
    lowercase located words.
- **The best-effort selector** (`BestEffortCommoditySubmissionFactory`). Sub-factories are functions
  from the capture to "threw", "returned null" or "built a submission". The selection is the
  source's filter and left-to-right `maxBy` reduction.
- **The template-alignment manipulation** (`AlignToTemplate`): an immutable configuration and a
  single delegation to alignment with validation.

Exceptions become `Result`/`Outcome` values. Java's `null`/`Optional` become `Option`.

Where the doc comments and the code disagree, the model follows the code:

- The doc comment of the two-argument `AlignToTemplate` constructor says an alignment below the
  threshold returns null. The code returns the input image (`ImageUtil.java:579`), and so does the
  model.
- `OneOcr` never releases its pipeline, process options or result instances
  (`OneOcr.java:164-223`, `260-269`), so no release discipline is modelled.

Files:

| file | module |
|---|---|
| `results.dfy` | `Results`: Option, Result, Outcome, Min, Max |
| `awt.dfy` | `Awt`: Color, Image, Rectangle and `Rectangle.contains` |
| `match_ranking.dfy` | `MatchRanking`: match sorting, selection and good-match counting |
| `image_alignment.dfy` | `ImageAlignment`: alignment, validation and similarity |
| `image_colors.dfy` | `ImageColors`: inversion, average and dominant colour |
| `native_ocr.dfy` | `NativeOcr`: the OneOcr bridge |
| `best_effort.dfy` | `BestEffort`: the best-effort selector |
| `template_alignment.dfy` | `TemplateAlignment`: the AlignToTemplate manipulation |

## Model

| member | source | states |
|---|---|---|
| MatchRanking.SortByDistance | src/main/java/tools/sctrade/companion/utils/ImageUtil.java:536 | The sorted match list has the same length, is ascending by distance and is a permutation (equal multiset) of the matcher's list. |
| MatchRanking.SortByDistanceIsStable | src/main/java/tools/sctrade/companion/utils/ImageUtil.java:536 | List.sort is stable: for every distance, the matches at that distance appear in the same relative order before and after sorting. |
| MatchRanking.KeepCount | src/main/java/tools/sctrade/companion/utils/ImageUtil.java:537-539 | The number of kept matches is at most n; it is at least 4 exactly when n is at least 4; it is n when n < 4; it is n/10 when n >= 40; and it is never below n/10 when n >= 4. |
| MatchRanking.GoodMatchesAreTheClosest | src/main/java/tools/sctrade/companion/utils/ImageUtil.java:534-539 | The kept sub-list has exactly KeepCount(n) matches, is sorted, is drawn from the matcher's matches, and no dropped match has a smaller distance than any kept one. |
| MatchRanking.CountGoodIsOrderFree | src/main/java/tools/sctrade/companion/utils/ImageUtil.java:702-714 | Two match lists with the same matches have the same good-match count, so sorting before counting does not change the similarity score. |
| ImageAlignment.CountGoodMatches | src/main/java/tools/sctrade/companion/utils/ImageUtil.java:707-714 | The counting loop returns the number of matches whose distance is below 50. |
| ImageAlignment.Similarity | src/main/java/tools/sctrade/companion/utils/ImageUtil.java:648-727 | The similarity score always lies in [0, 1]. |
| ImageAlignment.CalculateImageSimilarity | src/main/java/tools/sctrade/companion/utils/ImageUtil.java:648-727 | The score equals the similarity function (0 on a conversion failure, on no keypoints and on no matches; otherwise the clamped ratio of good matches to the smaller keypoint count) and lies in [0, 1]. |
| ImageAlignment.SimilarityWithoutFeaturesIsZero | src/main/java/tools/sctrade/companion/utils/ImageUtil.java:687-700 | The score is 0 whenever either image has no keypoints or the matcher finds no match. |
| ImageAlignment.SimilarityIsGoodMatchRatio | src/main/java/tools/sctrade/companion/utils/ImageUtil.java:716-724 | When the good matches do not outnumber the smaller keypoint count, the score times that count is exactly the number of good matches. |
| ImageAlignment.Warp | src/main/java/tools/sctrade/companion/utils/ImageUtil.java:505-571 | A successful warp needs both images convertible, and its image is what `warpPerspective` gives for the input, a non-empty homography and the reference's width and height. |
| ImageAlignment.Aligned | src/main/java/tools/sctrade/companion/utils/ImageUtil.java:486-584 | Validation passes the warp's failure through unchanged; a successful result is either the original image or the warped image. |
| ImageAlignment.AlignToReferenceWithValidation | src/main/java/tools/sctrade/companion/utils/ImageUtil.java:486-584 | The result is the warp's failure unchanged; or the original image when the threshold is positive and the warped image scores below it; or else the warped image. |
| ImageAlignment.AlignToReference | src/main/java/tools/sctrade/companion/utils/ImageUtil.java:466-469 | Alignment without validation gives exactly the warp result: the threshold-0 case of validated alignment. |
| ImageAlignment.FewerThanFourMatchesFail | src/main/java/tools/sctrade/companion/utils/ImageUtil.java:537-544 | With both images convertible, alignment fails for insufficient matches if and only if the matcher found fewer than 4 matches. |
| ImageAlignment.FourMatchesReachHomography | src/main/java/tools/sctrade/companion/utils/ImageUtil.java:541-565 | With at least 4 matches, alignment never fails for insufficient matches. It fails for an empty homography exactly when the solver returns an empty matrix for the kept matches. |
| ImageAlignment.ThresholdNeverCausesFailure | src/main/java/tools/sctrade/companion/utils/ImageUtil.java:573-584 | Validated alignment fails exactly when the warp fails, and with the same error; the threshold alone never causes a failure. |
| ImageAlignment.ThresholdZeroSkipsValidation | src/main/java/tools/sctrade/companion/utils/ImageUtil.java:574 | With a threshold of at most 0 the similarity is not consulted and the warp result is returned as is. |
| ImageAlignment.PoorAlignmentReturnsOriginal | src/main/java/tools/sctrade/companion/utils/ImageUtil.java:574-580 | With a positive threshold and a warped image scoring below it, the original image is returned, not an error. |
| ImageAlignment.ReturnedWarpPassedValidation | src/main/java/tools/sctrade/companion/utils/ImageUtil.java:574-584 | A warp scoring at least the threshold is returned. A returned warped image that differs from the input scored at least a positive threshold. |
| ImageAlignment.ThresholdAboveOneAlwaysSoftFails | src/main/java/tools/sctrade/companion/utils/ImageUtil.java:574-580 | Since scores never exceed 1, a threshold above 1 turns every successful warp into the original image. |
| ImageAlignment.WarpHasReferenceSize | src/main/java/tools/sctrade/companion/utils/ImageUtil.java:568-571 | The warped image has the reference's columns and rows, given that the warp honours the canvas size it is handed. |
| ImageColors.InvertColors | src/main/java/tools/sctrade/companion/utils/ImageUtil.java:122-131 | Every pixel is replaced in place by the opaque colour with red, green and blue each reflected (255 - c); the dimensions are those of the array. |
| ImageColors.InvertedTwiceRestoresRgb | src/main/java/tools/sctrade/companion/utils/ImageUtil.java:125-128 | Inverting a colour twice restores its red, green and blue, with alpha made opaque. |
| ImageColors.InvertColorsTwice | src/main/java/tools/sctrade/companion/utils/ImageUtil.java:122-131 | Calling invertColors twice leaves every pixel with its original red, green and blue channels, now opaque. |
| ImageColors.Total | src/main/java/tools/sctrade/companion/utils/ImageUtil.java:223-233 | A channel total over n pixels lies between 0 and 255 n. |
| ImageColors.Mean | src/main/java/tools/sctrade/companion/utils/ImageUtil.java:236-239 | The integer average m of a channel is the floor of total / n, that is m n <= total < (m + 1) n, and it is a valid channel value. |
| ImageColors.CalculateAverageColor | src/main/java/tools/sctrade/companion/utils/ImageUtil.java:215-241 | It fails with RectangleOutOfBounds, carrying both rectangles, exactly when the rectangle is not inside the image. Otherwise it returns the opaque colour whose channels are the floor means over the rectangle's pixels. |
| ImageColors.SumColumn | src/main/java/tools/sctrade/companion/utils/ImageUtil.java:229-233 | The inner loop adds the red, green and blue levels of one column's pixels to the running totals. |
| ImageColors.CalculateAverageColorOfImage | src/main/java/tools/sctrade/companion/utils/ImageUtil.java:203-205 | The whole-image average fails only for an image of zero width or height; otherwise it is the mean over every pixel. |
| ImageColors.MeanOfUniform | src/main/java/tools/sctrade/companion/utils/ImageUtil.java:223-239 | A region of one colour averages to that colour's channel values. |
| ImageColors.Quantise | src/main/java/tools/sctrade/companion/utils/ImageUtil.java:178-180 | A channel minus its remainder modulo 10 is a multiple of 10, at most 250, and lies within 10 below the original channel. |
| ImageColors.CountApproximateColors | src/main/java/tools/sctrade/companion/utils/ImageUtil.java:173-185 | After the first loop, the map is what one `put(c, getOrDefault(c, 0) + 1)` per pixel in loop order builds, and it gives for every approximate colour its number of pixels in the rectangle and holds no colour that does not occur. |
| ImageColors.CountColumn | src/main/java/tools/sctrade/companion/utils/ImageUtil.java:176-184 | The inner loop adds one count per pixel of the column, in order, to the map it was given. |
| ImageColors.TallyCountsEveryColor | src/main/java/tools/sctrade/companion/utils/ImageUtil.java:173-185 | Counting with `getOrDefault(c, 0) + 1` from an empty map gives each colour its number of occurrences and holds no other colour. |
| ImageColors.ColorsByCount | src/main/java/tools/sctrade/companion/utils/ImageUtil.java:187-191 | Given the positive counts the first loop produces, the inverted map sends each occurring count to a colour with that count, and every colour's count is a key. |
| ImageColors.MaxKey | src/main/java/tools/sctrade/companion/utils/ImageUtil.java:193 | Collections.max returns a key that is no smaller than any other key. |
| ImageColors.CalculateDominantColor | src/main/java/tools/sctrade/companion/utils/ImageUtil.java:165-194 | It fails exactly when the rectangle is not inside the image. Otherwise it returns an approximate colour that occurs in the rectangle and is at least as frequent as every other approximate colour. |
| ImageColors.CalculateDominantColorOfImage | src/main/java/tools/sctrade/companion/utils/ImageUtil.java:153-155 | The whole-image dominant colour fails only for an empty image; otherwise it is a most frequent approximate colour of the image. |
| ImageColors.ApproximatedAreApproximate | src/main/java/tools/sctrade/companion/utils/ImageUtil.java:178-183 | Every colour counted in the map is a fixed point of the approximation, so the returned colour has channels that are multiples of 10. |
| NativeOcr.ToLower | src/main/java/tools/sctrade/companion/domain/ocr/OneOcr.java:317 | The lowercased text has the same length, contains no uppercase ASCII letter, and differs from the engine text only where that text has an uppercase letter. |
| NativeOcr.ToLowerIdempotent | src/main/java/tools/sctrade/companion/domain/ocr/OneOcr.java:317 | Lowercasing already lowercased text changes nothing. |
| NativeOcr.Round | src/main/java/tools/sctrade/companion/domain/ocr/OneOcr.java:361-364 | Math.round gives the integer r with r - 1/2 <= v < r + 1/2. |
| NativeOcr.ToRectangle | src/main/java/tools/sctrade/companion/domain/ocr/OneOcr.java:360-366 | x and y are within half a pixel of corner 1; width and height are within half a pixel of the distance from corner 1 to corner 3. |
| NativeOcr.ToRectangleIgnoresCorners2And4 | src/main/java/tools/sctrade/companion/domain/ocr/OneOcr.java:360-366 | Changing corners 2 and 4 of a box never changes its rectangle. |
| NativeOcr.ToRectangleOfWholePixels | src/main/java/tools/sctrade/companion/domain/ocr/OneOcr.java:360-366 | A box whose corners 1 and 3 are whole pixels gives exactly those corners as the rectangle. |
| NativeOcr.ToRectangleExample | src/main/java/tools/sctrade/companion/domain/ocr/OneOcr.java:360-366 | The box (10,20) (50,20) (50,60) (10,60) becomes the rectangle (10, 20, 40, 40). |
| NativeOcr.WordList.Add | src/main/java/tools/sctrade/companion/domain/ocr/OneOcr.java:303 | Adding a word appends it at the end of the list. |
| NativeOcr.AppendLineWords | src/main/java/tools/sctrade/companion/domain/ocr/OneOcr.java:289-305 | The line's non-null words, converted and in index order, are appended to the list. |
| NativeOcr.IsNullPointer | src/main/java/tools/sctrade/companion/domain/ocr/OneOcr.java:380-382 | A handle is non-null exactly when it holds an object at a non-zero address. |
| NativeOcr.ToLocatedWord | src/main/java/tools/sctrade/companion/domain/ocr/OneOcr.java:307-318 | The word's text, lowercased (same length, no uppercase ASCII letter, changed only at uppercase letters), with the rectangle of its box. |
| NativeOcr.ToLocatedWords | src/main/java/tools/sctrade/companion/domain/ocr/OneOcr.java:271-287 | The output is the words of every non-null line, line after line. |
| NativeOcr.LocatedWordsConcat | src/main/java/tools/sctrade/companion/domain/ocr/OneOcr.java:274-284 | Lines are walked in order: the words of two runs of lines are the words of the first run, then those of the second. |
| NativeOcr.NullLineContributesNothing | src/main/java/tools/sctrade/companion/domain/ocr/OneOcr.java:274-284 | Removing a null or zero-address line handle leaves the output unchanged. |
| NativeOcr.LineWordsMembership | src/main/java/tools/sctrade/companion/domain/ocr/OneOcr.java:294-304 | A word is output for a line if and only if some non-null word handle of that line yields it. |
| NativeOcr.LocatedWordsMembership | src/main/java/tools/sctrade/companion/domain/ocr/OneOcr.java:271-305 | A word is in the output if and only if it comes from a non-null line handle: nothing is dropped and nothing is invented. |
| NativeOcr.LocatedWordsAreLowercase | src/main/java/tools/sctrade/companion/domain/ocr/OneOcr.java:307-318 | No output word contains an uppercase ASCII letter. |
| NativeOcr.AppendRow | src/main/java/tools/sctrade/companion/domain/ocr/OneOcr.java:340-344 | Copying one row appends that row's pixels, left to right, four bytes each. |
| NativeOcr.ToNativeImg | src/main/java/tools/sctrade/companion/domain/ocr/OneOcr.java:336-354 | The descriptor has type 3, col = width, row = height, unk = 0 and step = 4 width, over a buffer of 4 width height bytes holding the image row by row in BGRA order. |
| NativeOcr.NativeImageShowsEveryPixel | src/main/java/tools/sctrade/companion/domain/ocr/OneOcr.java:340-352 | Reading the descriptor at byte y step + 4 x finds the blue, green, red and alpha bytes of pixel (x, y). |
| NativeOcr.NulTerminated | src/main/java/tools/sctrade/companion/domain/ocr/OneOcr.java:371-377 | The native string is one byte longer than the text: the ASCII byte of each character ('?' for non-ASCII), then a 0 terminator. |
| NativeOcr.ToNativeString | src/main/java/tools/sctrade/companion/domain/ocr/OneOcr.java:371-377 | The buffer filled byte by byte is exactly the NUL-terminated ASCII encoding of the text. |
| NativeOcr.NulTerminatedRoundTrip | src/main/java/tools/sctrade/companion/domain/ocr/OneOcr.java:371-377 | A text of non-NUL ASCII characters, read back as a C string from its native copy, is unchanged. |
| NativeOcr.Check | src/main/java/tools/sctrade/companion/domain/ocr/OneOcr.java:389-394 | A status passes if and only if it is 0; any other status fails with an error naming the function and carrying the code. |
| NativeOcr.Attempted | src/main/java/tools/sctrade/companion/domain/ocr/OneOcr.java:204-223 | The calls a run of checked calls makes are a prefix of the planned calls. |
| NativeOcr.FirstFailureStopsTheRun | src/main/java/tools/sctrade/companion/domain/ocr/OneOcr.java:204-223 | A run passes if and only if every status is 0, and then every call is made. Otherwise it stops right after the first failing call, which the error names with its code. |
| NativeOcr.FailureNamesLastAttempted | src/main/java/tools/sctrade/companion/domain/ocr/OneOcr.java:204-223 | A failed run's error names the last call it made and carries that call's status. |
| NativeOcr.NativeWorld.SetDllDirectory | src/main/java/tools/sctrade/companion/domain/ocr/OneOcr.java:89-91 | Setting the search directory records the call and makes the given directory (or none) current. |
| NativeOcr.NativeWorld.Load | src/main/java/tools/sctrade/companion/domain/ocr/OneOcr.java:174 | A library load is recorded with the search directory in force, and succeeds as the engine says for that path and directory. |
| NativeOcr.NativeWorld.Invoke | src/main/java/tools/sctrade/companion/domain/ocr/OneOcr.java:52-82 | A library call is recorded and returns the engine's status, leaving the search directory alone. |
| NativeOcr.NativeWorld.CheckAll | src/main/java/tools/sctrade/companion/domain/ocr/OneOcr.java:204-223 | A sequence of checked calls makes exactly the attempted calls and ends with the first failure, or passes. |
| NativeOcr.InitTraceBracketsSearchPath | src/main/java/tools/sctrade/companion/domain/ocr/OneOcr.java:169-179 | Initialisation first sets the search directory to the wrapper directory and last resets it, on success and failure alike. The library load runs under the wrapper directory, and no call in between changes it. |
| NativeOcr.InitFailsOnlyOnLoadOrStatus | src/main/java/tools/sctrade/companion/domain/ocr/OneOcr.java:173-223 | Initialisation succeeds if and only if the library loads and the three pipeline-creation calls all return 0. |
| NativeOcr.PipelineUsesFixedSettings | src/main/java/tools/sctrade/companion/domain/ocr/OneOcr.java:207-215 | The pipeline is created with model delay loading flag 0 and with the model key intact in its native copy. |
| NativeOcr.RunUsesFixedSettings | src/main/java/tools/sctrade/companion/domain/ocr/OneOcr.java:260-269 | Every run caps recognition at 1000 lines and passes the marshalled image. |
| NativeOcr.OneOcr.Open | src/main/java/tools/sctrade/companion/domain/ocr/OneOcr.java:164-180 | The constructor makes exactly the initialisation calls and leaves no search directory set. It yields a bridge if and only if initialisation passes, and otherwise the load or status error. |
| NativeOcr.OneOcr.Process | src/main/java/tools/sctrade/companion/domain/ocr/OneOcr.java:187-198 | Without a screenshot on disk, or when it cannot be read back, process fails before any native call. Otherwise it makes the checked run calls, fails on the first bad status, and returns the words of the instance the engine recognised in the marshalled image. |
| BestEffort.Candidate | src/main/java/tools/sctrade/companion/domain/commodity/BestEffortCommoditySubmissionFactory.java:23-28 | A sub-factory that threw or returned null gives no candidate; a built submission is the candidate, unchanged. |
| BestEffort.Candidates | src/main/java/tools/sctrade/companion/domain/commodity/BestEffortCommoditySubmissionFactory.java:23-28 | There is one candidate per sub-factory, in order, each from the same capture. |
| BestEffort.Survivors | src/main/java/tools/sctrade/companion/domain/commodity/BestEffortCommoditySubmissionFactory.java:29 | Every submission that passes the filter has at least one listing. |
| BestEffort.SelectFailsIffNoneSurvives | src/main/java/tools/sctrade/companion/domain/commodity/BestEffortCommoditySubmissionFactory.java:29-31 | Selection fails with NoListings if and only if no candidate is a non-null submission with listings. |
| BestEffort.MaxBy | src/main/java/tools/sctrade/companion/domain/commodity/BestEffortCommoditySubmissionFactory.java:30 | The result is one of the two submissions, has at least as many listings as each, and is the left one on a tie. |
| BestEffort.Select | src/main/java/tools/sctrade/companion/domain/commodity/BestEffortCommoditySubmissionFactory.java:29-31 | Selection fails exactly when nothing survives the filter. Otherwise it returns a survivor with the most listings. |
| BestEffort.Build | src/main/java/tools/sctrade/companion/domain/commodity/BestEffortCommoditySubmissionFactory.java:22-32 | A built result has listings and is exactly what one of the sub-factories built. |
| BestEffort.SelectIsFirstLargest | src/main/java/tools/sctrade/companion/domain/commodity/BestEffortCommoditySubmissionFactory.java:29-31 | A successful selection returns a surviving candidate's submission. Its listing count is the largest among survivors, and every earlier survivor has strictly fewer listings, so ties go to the earliest. |
| BestEffort.BuildFailsIffNothingSurvives | src/main/java/tools/sctrade/companion/domain/commodity/BestEffortCommoditySubmissionFactory.java:22-32 | build throws NoListingsException exactly when no sub-factory returns a submission with listings; an exception inside a sub-factory never escapes. |
| BestEffort.BuildReturnsFirstLargest | src/main/java/tools/sctrade/companion/domain/commodity/BestEffortCommoditySubmissionFactory.java:22-32 | A built result is non-empty and is the very submission of one sub-factory. It has the most listings of any sub-factory's submission, and is the first such. |
| BestEffort.NoFactoriesFail | src/main/java/tools/sctrade/companion/domain/commodity/BestEffortCommoditySubmissionFactory.java:29-31 | With no sub-factories, build throws NoListingsException. |
| BestEffort.ThirdOfThreeWins | src/main/java/tools/sctrade/companion/domain/commodity/BestEffortCommoditySubmissionFactory.java:22-32 | If the first pipeline throws, the second returns no listings and the third returns five, the third's submission is returned. |
| TemplateAlignment.AlignToTemplate.Manipulate | src/main/java/tools/sctrade/companion/domain/image/manipulations/AlignToTemplate.java:40-42 | manipulate is alignment with validation of the image against the stored template with the stored threshold. |
| TemplateAlignment.WithTemplate | src/main/java/tools/sctrade/companion/domain/image/manipulations/AlignToTemplate.java:34-37 | Construction fails exactly when the template resource is missing. Otherwise it stores the resource's image and the given threshold. |
| TemplateAlignment.Default | src/main/java/tools/sctrade/companion/domain/image/manipulations/AlignToTemplate.java:22-24 | The no-argument constructor fails exactly when the bundled template is missing, and otherwise holds that template and threshold 0.12. |
| TemplateAlignment.DefaultAlwaysValidates | src/main/java/tools/sctrade/companion/domain/image/manipulations/AlignToTemplate.java:22-24 | The default instance holds the bundled template and threshold 0.12, which is positive, so validation always runs. |
| TemplateAlignment.DefaultReturnsInputBelowThreshold | src/main/java/tools/sctrade/companion/domain/image/manipulations/AlignToTemplate.java:40-42 | When the warp scores below 0.12, a default instance returns the input image, not null and not an error. |
| TemplateAlignment.DefaultWarpsScoreAtLeastThreshold | src/main/java/tools/sctrade/companion/domain/image/manipulations/AlignToTemplate.java:40-42 | Anything a default instance returns other than its input scored at least 0.12 against the template. |

## Left out

- OpenCV internals: ORB detection, the brute-force Hamming matcher, RANSAC `findHomography`,
  `warpPerspective` and the channel split. These are foreign calls. Their answers are the fields of
  `ImageAlignment.Vision`.
- The JPEG round trips of `toMat` and `toBufferedImage`: only their success or `IOException` is
  modelled. The same holds for `readFromResource`, `loadImageFromDisk` and the disk writer.
- The `finally` blocks that release OpenCV `Mat`s: native cleanup with no observable logic.
- JNA plumbing: `Native.load` of kernel32, `Memory` addresses, `Structure` reads, the UTF-8 read of
  word text, the pointer values passed between calls, and `GetOcrLineCount`/`GetOcrWordCount`. A
  line or word handle sequence stands for what the getters yield.
- The statuses of the line and word getters: the code ignores them, so the model has no such
  statuses.
- NativeOcr.ToLocatedWords, NativeOcr.OneOcr.Process: when `GetOcrWordContent` or
  `GetOcrWordBoundingBox` fails, its out-pointer stays null and `toLocatedWord` throws a
  NullPointerException (`OneOcr.java:310`, `313-314`). The model assumes both getters succeed and
  always yields a located word for a non-null word handle.
- Floating point: match distances are natural numbers (Hamming distances); the similarity score,
  the threshold and the box corners are reals.
- MatchRanking.KeepCount: models `(int) (n * 0.1)` as `n / 10`, which agrees for the at most 500
  matches of `ORB.create(500)`.
- MatchRanking.SortByDistance: `List.sort` is modelled by a stable insertion sort. Only its
  observable result is modelled: sorted, a permutation, and stable.
- ImageColors.CalculateAverageColor: channel totals are unbounded integers. Java's `int` totals
  would wrap above 8,421,504 full-intensity pixels in one rectangle.
- ImageColors.CalculateDominantColor: which colour wins among equally frequent ones depends on
  `HashMap` iteration order. The model leaves it unspecified and proves only that the winner is a
  most frequent colour.
- ImageColors.InvertColors: the image types whose `setRGB` drops or alters channels are not
  modelled. Every pixel is assumed to store the colour written.
- NativeOcr.ToLower: lowercases ASCII letters only. `String.toLowerCase` also maps other Unicode
  letters, by the default locale.
- NativeOcr.Round: `Math.round` of a float also saturates at the `int` range and maps NaN to 0. The
  model rounds reals without bounds.
- NativeOcr.ToNativeImg: the `int` overflow of `width * height` for huge images is not modelled.
  The buffer is assumed to be little-endian, as on Windows.
- NativeOcr.NulTerminated: counts Unicode scalar values. `getBytes(US_ASCII)` writes one `?` per
  supplementary character, as the model does, but Java's `length()` counts such a character
  twice.
- NativeOcr.OneOcr.Process: the preprocessing manipulations of the `Ocr` base class and the
  wrapping into `OcrResult` are not part of this model.
- `Ocr`, `CommoditySubmissionFactory`, `DiskImageWriter` and listing parsing are not part of this
  model.
- Calling each sub-factory exactly once, in order: sub-factories are pure functions in the model,
  so the number of calls is not observable.
- `adjustBrightnessAndContrast`, the other `ImageUtil` helpers, `SettingsTab` and `KeyListener` are
  not part of this model.
